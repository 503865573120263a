/**
 * The pure part of the guided-dragging tool: the search area of a pass,
 * the fixed-order scoring of candidates against the dragged part, the snap
 * position and the span of a guideline. The class in GuidedDragging drives
 * these once per axis.
 */
module Alignment {

  import opened Wrappers
  import opened Geometry

  /** A part the spatial query returned: its identity and the document bounds of its location object. */
  datatype Candidate = Candidate(id: nat, bounds: Rect)

  /** The winning comparison of a pass: `spot` of the dragged part against `otherSpot` of `other`. */
  datatype Match = Match(other: Candidate, spot: Spot, otherSpot: Spot)

  /** The running state of a pass: bestDiff, and bestObj with its two spots (None while bestObj is null). */
  datatype Best = Best(diff: real, found: Option<Match>)

  /** The geometry of a part: its location object's document bounds and its actualBounds. */
  datatype PartBounds = PartBounds(location: Rect, actual: Rect)

  /** The span of a guideline across the compared axis. */
  datatype Span = Span(lo: real, hi: real)

  // ---------------------------------------------------------------- search

  /**
   * The rectangle a pass hands to the spatial query: the dragged bounds,
   * widened by searchDistance across the compared axis and by
   * snapDistance + 1 along it.
   */
  function SearchArea(bounds: Rect, axis: Axis, snapDistance: real, searchDistance: real): (area: Rect)
    ensures Start(area, axis) == Start(bounds, axis) - (snapDistance + 1.0)
    ensures Start(area, axis) + Size(area, axis) == Start(bounds, axis) + Size(bounds, axis) + (snapDistance + 1.0)
    ensures CrossStart(area, axis) == CrossStart(bounds, axis) - searchDistance
    ensures CrossEnd(area, axis) == CrossEnd(bounds, axis) + searchDistance
  {
    if axis == Horizontal then Inflate(bounds, searchDistance, snapDistance + 1.0)
    else Inflate(bounds, snapDistance + 1.0, searchDistance)
  }

  /**
   * The area is tall enough along the compared axis: whenever a reference
   * line of another part is within snapDistance of one of the dragged
   * part's lines, that line lies strictly inside the area's range on that
   * axis. Across the axis the area reaches only searchDistance beyond the
   * dragged part.
   */
  lemma SearchAreaReachesAlignedLines(bounds: Rect, other: Rect, axis: Axis, snapDistance: real, searchDistance: real, spot: Spot, otherSpot: Spot)
    requires Size(bounds, axis) >= 0.0
    requires Abs(Line(bounds, axis, spot) - Line(other, axis, otherSpot)) < snapDistance
    ensures var area := SearchArea(bounds, axis, snapDistance, searchDistance);
      Start(area, axis) < Line(other, axis, otherSpot) < Start(area, axis) + Size(area, axis)
  {
  }

  /**
   * The query (which also returns partly included parts) reaches every part
   * that can match and lies within searchDistance across the axis: its
   * aligned line is strictly inside the area along the axis, and its cross
   * extent meets the area's.
   */
  lemma SearchAreaMeetsAlignedPart(bounds: Rect, other: Rect, axis: Axis, snapDistance: real, searchDistance: real, spot: Spot, otherSpot: Spot)
    requires Size(bounds, axis) >= 0.0 && Size(other, axis) >= 0.0
    requires Abs(Line(bounds, axis, spot) - Line(other, axis, otherSpot)) < snapDistance
    requires CrossStart(other, axis) <= CrossEnd(bounds, axis) + searchDistance
    requires CrossStart(bounds, axis) - searchDistance <= CrossEnd(other, axis)
    ensures var area := SearchArea(bounds, axis, snapDistance, searchDistance);
      && Start(area, axis) < Line(other, axis, otherSpot) < Start(area, axis) + Size(area, axis)
      && Start(other, axis) <= Line(other, axis, otherSpot) <= Start(other, axis) + Size(other, axis)
      && CrossStart(area, axis) <= CrossEnd(other, axis)
      && CrossStart(other, axis) <= CrossEnd(area, axis)
  {
    SearchAreaReachesAlignedLines(bounds, other, axis, snapDistance, searchDistance, spot, otherSpot);
  }

  // --------------------------------------------------------------- scoring

  /** |p - q| for a spot of the dragged part and a spot of another part. */
  function Diff(bounds: Rect, other: Rect, axis: Axis, spot: Spot, otherSpot: Spot): real {
    Abs(Line(bounds, axis, spot) - Line(other, axis, otherSpot))
  }

  /** The five spot pairs a pass compares: center with center, and each edge with each edge. */
  predicate ComparedPair(spot: Spot, otherSpot: Spot) {
    spot == Center <==> otherSpot == Center
  }

  /** One comparison: the pair replaces the running best only when strictly closer. */
  function Improve(b: Best, diff: real, m: Match): Best {
    if diff < b.diff then Best(diff, Some(m)) else b
  }

  /**
   * The comparisons made for one candidate, in the source's order: center
   * with center; then near edge with near edge, or else (only when that did
   * not improve) near edge with far edge; then far edge with near edge, or
   * else far edge with far edge.
   */
  function ScoreCandidate(b: Best, bounds: Rect, axis: Axis, c: Candidate): Best {
    var b1 := Improve(b, Diff(bounds, c.bounds, axis, Center, Center), Match(c, Center, Center));
    EdgeStep(EdgeStep(b1, bounds, axis, c, Near), bounds, axis, c, Far)
  }

  /**
   * The comparisons of one edge `spot` of the dragged part: with the
   * other's near edge, or else (only when that did not improve) with its
   * far edge.
   */
  function EdgeStep(b: Best, bounds: Rect, axis: Axis, c: Candidate, spot: Spot): Best {
    if Diff(bounds, c.bounds, axis, spot, Near) < b.diff then
      Improve(b, Diff(bounds, c.bounds, axis, spot, Near), Match(c, spot, Near))
    else
      Improve(b, Diff(bounds, c.bounds, axis, spot, Far), Match(c, spot, Far))
  }

  /**
   * The running best after the candidates of `cands`, in the order the
   * query returned them, starting from bestDiff = snapDistance and no
   * match; the dragged part itself (`selfId`) is skipped.
   */
  function Score(bounds: Rect, axis: Axis, selfId: nat, cands: seq<Candidate>, snapDistance: real): Best
    decreases |cands|
  {
    if |cands| == 0 then Best(snapDistance, None)
    else
      var b := Score(bounds, axis, selfId, cands[..|cands| - 1], snapDistance);
      var c := cands[|cands| - 1];
      if c.id == selfId then b else ScoreCandidate(b, bounds, axis, c)
  }

  /** A pass over a single candidate. */
  lemma ScoreSingle(bounds: Rect, axis: Axis, selfId: nat, c: Candidate, snapDistance: real)
    ensures Score(bounds, axis, selfId, [c], snapDistance)
      == if c.id == selfId then Best(snapDistance, None) else ScoreCandidate(Best(snapDistance, None), bounds, axis, c)
  {
    assert [c][..0] == [];
  }

  /** Extending the candidates by one scores that one candidate against the best so far. */
  lemma ScoreNext(bounds: Rect, axis: Axis, selfId: nat, cands: seq<Candidate>, i: nat, snapDistance: real)
    requires i < |cands|
    ensures Score(bounds, axis, selfId, cands[..i + 1], snapDistance)
      == if cands[i].id == selfId then Score(bounds, axis, selfId, cands[..i], snapDistance)
         else ScoreCandidate(Score(bounds, axis, selfId, cands[..i], snapDistance), bounds, axis, cands[i])
  {
    assert cands[..i + 1][..i] == cands[..i];
  }

  /** Some one of the five compared differences of `c` is strictly below `tolerance`. */
  predicate WithinTolerance(bounds: Rect, axis: Axis, c: Candidate, tolerance: real) {
    || Diff(bounds, c.bounds, axis, Center, Center) < tolerance
    || Diff(bounds, c.bounds, axis, Near, Near) < tolerance
    || Diff(bounds, c.bounds, axis, Near, Far) < tolerance
    || Diff(bounds, c.bounds, axis, Far, Near) < tolerance
    || Diff(bounds, c.bounds, axis, Far, Far) < tolerance
  }

  /**
   * One candidate's comparisons never raise the best difference; they end
   * at or below its center/center, near/near and far/near differences;
   * they change the running best exactly when one of its five differences
   * is below it, and then only to a strictly smaller difference and a
   * compared pair of this candidate.
   */
  lemma ScoreCandidateStep(b: Best, bounds: Rect, axis: Axis, c: Candidate)
    ensures var r := ScoreCandidate(b, bounds, axis, c);
      && r.diff <= b.diff
      && r.diff <= Diff(bounds, c.bounds, axis, Center, Center)
      && r.diff <= Diff(bounds, c.bounds, axis, Near, Near)
      && r.diff <= Diff(bounds, c.bounds, axis, Far, Near)
      && (r == b <==> !WithinTolerance(bounds, axis, c, b.diff))
      && (r != b ==>
            && r.diff < b.diff
            && r.found.Some? && r.found.value.other == c
            && ComparedPair(r.found.value.spot, r.found.value.otherSpot)
            && r.diff == Diff(bounds, c.bounds, axis, r.found.value.spot, r.found.value.otherSpot))
  {
  }

  /**
   * What a finished pass reports: bestDiff never exceeds snapDistance; with
   * no match it is still snapDistance; a match is a candidate of the query
   * other than the dragged part, with a compared spot pair whose difference
   * is bestDiff and strictly below snapDistance.
   */
  lemma {:induction false} ScoreSound(bounds: Rect, axis: Axis, selfId: nat, cands: seq<Candidate>, snapDistance: real)
    ensures var r := Score(bounds, axis, selfId, cands, snapDistance);
      && r.diff <= snapDistance
      && (r.found.None? ==> r.diff == snapDistance)
      && (r.found.Some? ==>
            && r.diff < snapDistance
            && r.found.value.other in cands
            && r.found.value.other.id != selfId
            && ComparedPair(r.found.value.spot, r.found.value.otherSpot)
            && r.diff == Diff(bounds, r.found.value.other.bounds, axis, r.found.value.spot, r.found.value.otherSpot))
  {
    if |cands| > 0 {
      var init := cands[..|cands| - 1];
      var c := cands[|cands| - 1];
      assert cands == init + [c];
      ScoreSound(bounds, axis, selfId, init, snapDistance);
      ScoreCandidateStep(Score(bounds, axis, selfId, init, snapDistance), bounds, axis, c);
    }
  }

  /**
   * The final bestDiff is at most the center/center, near/near and far/near
   * difference of every candidate other than the dragged part. (Near/far
   * and far/far are not bounded: they are skipped whenever the comparison
   * before them improved.)
   */
  lemma {:induction false} ScoreBelowEveryCandidate(bounds: Rect, axis: Axis, selfId: nat, cands: seq<Candidate>, snapDistance: real)
    ensures forall c :: c in cands && c.id != selfId ==>
      var r := Score(bounds, axis, selfId, cands, snapDistance);
      && r.diff <= Diff(bounds, c.bounds, axis, Center, Center)
      && r.diff <= Diff(bounds, c.bounds, axis, Near, Near)
      && r.diff <= Diff(bounds, c.bounds, axis, Far, Near)
  {
    if |cands| > 0 {
      var init := cands[..|cands| - 1];
      var last := cands[|cands| - 1];
      assert cands == init + [last];
      ScoreBelowEveryCandidate(bounds, axis, selfId, init, snapDistance);
      ScoreCandidateStep(Score(bounds, axis, selfId, init, snapDistance), bounds, axis, last);
      forall c | c in cands && c.id != selfId
        ensures var r := Score(bounds, axis, selfId, cands, snapDistance);
          && r.diff <= Diff(bounds, c.bounds, axis, Center, Center)
          && r.diff <= Diff(bounds, c.bounds, axis, Near, Near)
          && r.diff <= Diff(bounds, c.bounds, axis, Far, Near)
      {
        if c != last {
          assert c in init;
        }
      }
    }
  }

  /**
   * A pass finds a match exactly when some candidate other than the dragged
   * part has one of its five compared differences strictly below
   * snapDistance.
   */
  lemma {:induction false} ScoreMatchesIffWithinTolerance(bounds: Rect, axis: Axis, selfId: nat, cands: seq<Candidate>, snapDistance: real)
    ensures Score(bounds, axis, selfId, cands, snapDistance).found.Some?
      <==> exists c :: c in cands && c.id != selfId && WithinTolerance(bounds, axis, c, snapDistance)
  {
    if |cands| > 0 {
      var init := cands[..|cands| - 1];
      var last := cands[|cands| - 1];
      assert cands == init + [last];
      ScoreMatchesIffWithinTolerance(bounds, axis, selfId, init, snapDistance);
      ScoreSound(bounds, axis, selfId, init, snapDistance);
      ScoreCandidateStep(Score(bounds, axis, selfId, init, snapDistance), bounds, axis, last);
      if exists c :: c in cands && c.id != selfId && WithinTolerance(bounds, axis, c, snapDistance) {
        var c :| c in cands && c.id != selfId && WithinTolerance(bounds, axis, c, snapDistance);
        if c != last {
          assert c in init;
        }
      }
    }
  }

  /**
   * Over a growing prefix of the candidates bestDiff never increases, and
   * when it stays the same the earlier best is kept: a later candidate that
   * only ties does not displace it.
   */
  lemma {:induction false} ScoreNeverIncreases(bounds: Rect, axis: Axis, selfId: nat, cands: seq<Candidate>, snapDistance: real, i: nat, j: nat)
    requires i <= j <= |cands|
    ensures Score(bounds, axis, selfId, cands[..j], snapDistance).diff <= Score(bounds, axis, selfId, cands[..i], snapDistance).diff
    ensures Score(bounds, axis, selfId, cands[..j], snapDistance).diff == Score(bounds, axis, selfId, cands[..i], snapDistance).diff
      ==> Score(bounds, axis, selfId, cands[..j], snapDistance) == Score(bounds, axis, selfId, cands[..i], snapDistance)
    decreases j
  {
    if i < j {
      ScoreNeverIncreases(bounds, axis, selfId, cands, snapDistance, i, j - 1);
      assert cands[..j][..j - 1] == cands[..j - 1];
      ScoreCandidateStep(Score(bounds, axis, selfId, cands[..j - 1], snapDistance), bounds, axis, cands[j - 1]);
    }
  }

  /**
   * Within one candidate, an earlier comparison wins a tie: when the
   * center/center difference improves the best and no other compared
   * difference of the candidate is strictly smaller, the center pair wins.
   */
  lemma CenterWinsTies(b: Best, bounds: Rect, axis: Axis, c: Candidate)
    requires Diff(bounds, c.bounds, axis, Center, Center) < b.diff
    requires Diff(bounds, c.bounds, axis, Center, Center) <= Diff(bounds, c.bounds, axis, Near, Near)
    requires Diff(bounds, c.bounds, axis, Center, Center) <= Diff(bounds, c.bounds, axis, Near, Far)
    requires Diff(bounds, c.bounds, axis, Center, Center) <= Diff(bounds, c.bounds, axis, Far, Near)
    requires Diff(bounds, c.bounds, axis, Center, Center) <= Diff(bounds, c.bounds, axis, Far, Far)
    ensures ScoreCandidate(b, bounds, axis, c).found == Some(Match(c, Center, Center))
  {
  }

  /**
   * Within one edge of the dragged part, the other's near edge wins: when
   * it improves the best, the far edge is not compared, so the near pair is
   * kept even when the far pair ties it or is closer; the far pair is taken
   * only when the near pair did not improve and the far pair strictly does.
   */
  lemma EdgeStepPrefersNearEdge(b: Best, bounds: Rect, axis: Axis, c: Candidate, spot: Spot)
    requires spot != Center
    ensures Diff(bounds, c.bounds, axis, spot, Near) < b.diff ==>
      EdgeStep(b, bounds, axis, c, spot) == Best(Diff(bounds, c.bounds, axis, spot, Near), Some(Match(c, spot, Near)))
    ensures b.diff <= Diff(bounds, c.bounds, axis, spot, Near) && Diff(bounds, c.bounds, axis, spot, Far) < b.diff ==>
      EdgeStep(b, bounds, axis, c, spot) == Best(Diff(bounds, c.bounds, axis, spot, Far), Some(Match(c, spot, Far)))
    ensures b.diff <= Diff(bounds, c.bounds, axis, spot, Near) && b.diff <= Diff(bounds, c.bounds, axis, spot, Far) ==>
      EdgeStep(b, bounds, axis, c, spot) == b
  {
  }

  /**
   * The fixed order is not a global minimum: a dragged part spanning y = 10
   * to 110 and a part spanning y = 7 to 9 end the pass at top/top with
   * difference 3, although its top/bottom difference is 1, because the
   * top/bottom comparison is skipped once top/top improved.
   */
  lemma FixedOrderIsNotGlobalMinimum(dragged: Rect, other: Candidate)
    requires dragged.y == 10.0 && dragged.height == 100.0
    requires other.id == 1 && other.bounds.y == 7.0 && other.bounds.height == 2.0
    ensures Score(dragged, Horizontal, 0, [other], 6.0) == Best(3.0, Some(Match(other, Near, Near)))
    ensures Diff(dragged, other.bounds, Horizontal, Near, Far) == 1.0
  {
    FixedOrderDiffs(dragged, other.bounds);
    var start := Best(6.0, None);
    var atTop := Best(3.0, Some(Match(other, Near, Near)));
    assert Improve(start, 52.0, Match(other, Center, Center)) == start;
    assert Improve(start, 3.0, Match(other, Near, Near)) == atTop;
    assert Improve(atTop, 101.0, Match(other, Far, Far)) == atTop;
    assert ScoreCandidate(start, dragged, Horizontal, other) == atTop;
    ScoreSingle(dragged, Horizontal, 0, other, 6.0);
  }

  /** The five differences of the example above. */
  lemma FixedOrderDiffs(dragged: Rect, other: Rect)
    requires dragged.y == 10.0 && dragged.height == 100.0
    requires other.y == 7.0 && other.height == 2.0
    ensures Diff(dragged, other, Horizontal, Center, Center) == 52.0
    ensures Diff(dragged, other, Horizontal, Near, Near) == 3.0
    ensures Diff(dragged, other, Horizontal, Near, Far) == 1.0
    ensures Diff(dragged, other, Horizontal, Far, Near) == 103.0
    ensures Diff(dragged, other, Horizontal, Far, Far) == 101.0
  {
  }

  /**
   * A later candidate with a smaller difference displaces an earlier one:
   * parts whose tops are 4 and then 2 away from the dragged top (both under
   * the tolerance 6) end the pass at the second.
   */
  lemma SmallerLaterCandidateWins()
    ensures var dragged := Rect(0.0, 100.0, 50.0, 50.0);
      var first := Candidate(1, Rect(200.0, 104.0, 50.0, 200.0));
      var second := Candidate(2, Rect(-300.0, 98.0, 50.0, 300.0));
      Score(dragged, Horizontal, 0, [first, second], 6.0) == Best(2.0, Some(Match(second, Near, Near)))
  {
    var dragged := Rect(0.0, 100.0, 50.0, 50.0);
    var first := Candidate(1, Rect(200.0, 104.0, 50.0, 200.0));
    var second := Candidate(2, Rect(-300.0, 98.0, 50.0, 300.0));
    assert [first, second][..1] == [first];
    assert [first][..0] == [];
    assert Diff(dragged, first.bounds, Horizontal, Center, Center) == 79.0;
    assert Diff(dragged, first.bounds, Horizontal, Near, Near) == 4.0;
    assert Diff(dragged, first.bounds, Horizontal, Far, Near) == 46.0;
    assert Diff(dragged, first.bounds, Horizontal, Far, Far) == 154.0;
    var afterFirst := Best(4.0, Some(Match(first, Near, Near)));
    assert Score(dragged, Horizontal, 0, [first], 6.0) == ScoreCandidate(Best(6.0, None), dragged, Horizontal, first);
    assert Score(dragged, Horizontal, 0, [first], 6.0) == afterFirst;
    assert Diff(dragged, second.bounds, Horizontal, Center, Center) == 123.0;
    assert Diff(dragged, second.bounds, Horizontal, Near, Near) == 2.0;
    assert Diff(dragged, second.bounds, Horizontal, Far, Near) == 52.0;
    assert Diff(dragged, second.bounds, Horizontal, Far, Far) == 248.0;
    assert Score(dragged, Horizontal, 0, [first, second], 6.0) == ScoreCandidate(afterFirst, dragged, Horizontal, second);
  }

  /**
   * A candidate appended to the query result displaces the best so far
   * exactly when one of its five compared differences is strictly below
   * the current bestDiff; it then becomes the match, with a strictly
   * smaller bestDiff. The dragged part itself never displaces anything.
   */
  lemma LaterCloserCandidateWins(bounds: Rect, axis: Axis, selfId: nat, cands: seq<Candidate>, c: Candidate, snapDistance: real)
    ensures var before := Score(bounds, axis, selfId, cands, snapDistance);
      var after := Score(bounds, axis, selfId, cands + [c], snapDistance);
      && (after != before <==> c.id != selfId && WithinTolerance(bounds, axis, c, before.diff))
      && (after != before ==>
            && after.found.Some? && after.found.value.other == c
            && after.diff < before.diff)
  {
    assert (cands + [c])[..|cands|] == cands;
    ScoreCandidateStep(Score(bounds, axis, selfId, cands, snapDistance), bounds, axis, c);
  }

  // ------------------------------------------------------------ apply step

  /**
   * part.move: the actual bounds take the new top-left corner and the
   * location object moves by the same amount, so the offset between the
   * two and both sizes are kept.
   */
  function MoveTo(b: PartBounds, p: Point): (r: PartBounds)
    ensures r.actual.x == p.x && r.actual.y == p.y
    ensures r.location.x - r.actual.x == b.location.x - b.actual.x
    ensures r.location.y - r.actual.y == b.location.y - b.actual.y
    ensures r.location.width == b.location.width && r.location.height == b.location.height
    ensures r.actual.width == b.actual.width && r.actual.height == b.actual.height
  {
    PartBounds(Translate(b.location, p.x - b.actual.x, p.y - b.actual.y), b.actual.(x := p.x, y := p.y))
  }

  /**
   * The position handed to part.move when `spot` of the part snaps to the
   * coordinate `target`: after the move that spot of the location object
   * lies exactly on `target`, and the part does not move across the
   * compared axis.
   */
  function SnapPosition(b: PartBounds, axis: Axis, spot: Spot, target: real): (p: Point)
    ensures Line(MoveTo(b, p).location, axis, spot) == target
    ensures CrossStart(MoveTo(b, p).location, axis) == CrossStart(b.location, axis)
  {
    var offsetX := b.location.x - b.actual.x;
    var offsetY := b.location.y - b.actual.y;
    if axis == Horizontal then
      Point(b.location.x - offsetX, target - SpotOffset(b.location.height, spot) - offsetY)
    else
      Point(target - SpotOffset(b.location.width, spot) - offsetX, b.location.y - offsetY)
  }

  /** Snapping a part whose spot already lies on the target does not move it. */
  lemma SnapOfAlignedPartStaysPut(b: PartBounds, axis: Axis, spot: Spot)
    ensures MoveTo(b, SnapPosition(b, axis, spot, Line(b.location, axis, spot))) == b
  {
  }

  /** The coordinate of the matched spot of the other part: what setRectSpot gives on the compared axis. */
  function Target(m: Match, axis: Axis): real {
    Line(m.other.bounds, axis, m.otherSpot)
  }

  /** The part's geometry after a snapping pass: moved onto the match if there is one, else unchanged. */
  function Snapped(b: PartBounds, axis: Axis, best: Best): PartBounds {
    if best.found.None? then b
    else MoveTo(b, SnapPosition(b, axis, best.found.value.spot, Target(best.found.value, axis)))
  }

  /**
   * A snapping pass with a match puts the matched spot on its target and
   * leaves the part where it was across the compared axis; the part keeps
   * both sizes and the offset of its location object.
   */
  lemma SnapLandsOnTarget(b: PartBounds, axis: Axis, d: real, m: Match)
    ensures var s := Snapped(b, axis, Best(d, Some(m)));
      && Line(s.location, axis, m.spot) == Target(m, axis)
      && CrossStart(s.location, axis) == CrossStart(b.location, axis)
      && s.location.width == b.location.width && s.location.height == b.location.height
      && s.location.x - s.actual.x == b.location.x - b.actual.x
      && s.location.y - s.actual.y == b.location.y - b.actual.y
      && s.actual.width == b.actual.width && s.actual.height == b.actual.height
  {
  }

  /**
   * The guideline's span across the compared axis: from 10 before the
   * smaller start of the two parts to 10 after the larger end.
   */
  function GuidelineSpan(a: Rect, b: Rect, axis: Axis): (s: Span)
    ensures s.lo + 10.0 <= CrossStart(a, axis) && s.lo + 10.0 <= CrossStart(b, axis)
    ensures s.lo + 10.0 == CrossStart(a, axis) || s.lo + 10.0 == CrossStart(b, axis)
    ensures s.hi - 10.0 >= CrossEnd(a, axis) && s.hi - 10.0 >= CrossEnd(b, axis)
    ensures s.hi - 10.0 == CrossEnd(a, axis) || s.hi - 10.0 == CrossEnd(b, axis)
  {
    Span(Min(CrossStart(a, axis), CrossStart(b, axis)) - 10.0, Max(CrossEnd(a, axis), CrossEnd(b, axis)) + 10.0)
  }

  /**
   * The position of a guideline: at the span's start across the compared
   * axis and exactly on the aligned coordinate along it.
   */
  function GuidelinePosition(axis: Axis, span: Span, target: real): (p: Point)
    ensures Coord(p, axis) == target
    ensures CrossCoord(p, axis) == span.lo
  {
    if axis == Horizontal then Point(span.lo, target) else Point(target, span.lo)
  }

  /**
   * The example of a drop: part A at (0, 0) of size 100x50, part B dragged
   * to (2, 48) with the same size, snapDistance 6. B's top (48) is 2 from
   * A's bottom (50), so the horizontal pass matches top/bottom with
   * difference 2.
   */
  lemma DropMatchesTopToBottom(a: Candidate, dragged: Rect)
    requires a.id == 1 && a.bounds.y == 0.0 && a.bounds.height == 50.0
    requires dragged.y == 48.0 && dragged.height == 50.0
    ensures Score(dragged, Horizontal, 2, [a], 6.0) == Best(2.0, Some(Match(a, Near, Far)))
  {
    DropDiffs(dragged, a.bounds);
    DropScore(a, dragged);
  }

  /** The horizontal pass of the example above, from its five differences: the match is B's top against A's bottom. */
  lemma DropScore(a: Candidate, dragged: Rect)
    requires a.id == 1
    requires Diff(dragged, a.bounds, Horizontal, Center, Center) == 48.0
    requires Diff(dragged, a.bounds, Horizontal, Near, Near) == 48.0
    requires Diff(dragged, a.bounds, Horizontal, Near, Far) == 2.0
    requires Diff(dragged, a.bounds, Horizontal, Far, Near) == 98.0
    requires Diff(dragged, a.bounds, Horizontal, Far, Far) == 48.0
    ensures Score(dragged, Horizontal, 2, [a], 6.0) == Best(2.0, Some(Match(a, Near, Far)))
  {
    var start := Best(6.0, None);
    var atBottom := Best(2.0, Some(Match(a, Near, Far)));
    assert Improve(start, 48.0, Match(a, Center, Center)) == start;
    assert EdgeStep(start, dragged, Horizontal, a, Near) == atBottom;
    assert EdgeStep(atBottom, dragged, Horizontal, a, Far) == atBottom;
    assert ScoreCandidate(start, dragged, Horizontal, a) == atBottom;
    ScoreSingle(dragged, Horizontal, 2, a, 6.0);
  }

  /** The snap that follows the match above: B's top moves onto A's bottom at y = 50, and B keeps its x and its size. */
  lemma DropSnapsOntoBottom(b: PartBounds, m: Match)
    requires b.location.x == 2.0 && b.location.y == 48.0 && b.location.width == 100.0 && b.location.height == 50.0
    requires b.actual.x == 2.0 && b.actual.y == 48.0 && b.actual.width == 100.0 && b.actual.height == 50.0
    requires m.spot == Near && m.otherSpot == Far && m.other.bounds.y == 0.0 && m.other.bounds.height == 50.0
    ensures Snapped(b, Horizontal, Best(2.0, Some(m))).location == Rect(2.0, 50.0, 100.0, 50.0)
    ensures Snapped(b, Horizontal, Best(2.0, Some(m))).actual == Rect(2.0, 50.0, 100.0, 50.0)
  {
    SnapLandsOnTarget(b, Horizontal, 2.0, m);
  }

  /**
   * The vertical pass of the same drop, on B's bounds after the horizontal
   * snap, from its five differences: B's center (52) is 2 from A's center
   * (50), the center pair is compared first, and the edge pairs only tie it.
   */
  lemma DropVerticalScore(a: Candidate, dragged: Rect)
    requires a.id == 1
    requires Diff(dragged, a.bounds, Vertical, Center, Center) == 2.0
    requires Diff(dragged, a.bounds, Vertical, Near, Near) == 2.0
    requires Diff(dragged, a.bounds, Vertical, Near, Far) == 98.0
    requires Diff(dragged, a.bounds, Vertical, Far, Near) == 102.0
    requires Diff(dragged, a.bounds, Vertical, Far, Far) == 2.0
    ensures Score(dragged, Vertical, 2, [a], 6.0) == Best(2.0, Some(Match(a, Center, Center)))
  {
    var start := Best(6.0, None);
    var atCenter := Best(2.0, Some(Match(a, Center, Center)));
    assert Improve(start, 2.0, Match(a, Center, Center)) == atCenter;
    assert EdgeStep(atCenter, dragged, Vertical, a, Near) == atCenter;
    assert EdgeStep(atCenter, dragged, Vertical, a, Far) == atCenter;
    assert ScoreCandidate(start, dragged, Vertical, a) == atCenter;
    ScoreSingle(dragged, Vertical, 2, a, 6.0);
  }

  /** The five vertical differences of B at (2, 50) against A: only the x-coordinates and widths count. */
  lemma DropVerticalDiffs(dragged: Rect, other: Rect)
    requires dragged.x == 2.0 && dragged.width == 100.0
    requires other.x == 0.0 && other.width == 100.0
    ensures Diff(dragged, other, Vertical, Center, Center) == 2.0
    ensures Diff(dragged, other, Vertical, Near, Near) == 2.0
    ensures Diff(dragged, other, Vertical, Near, Far) == 98.0
    ensures Diff(dragged, other, Vertical, Far, Near) == 102.0
    ensures Diff(dragged, other, Vertical, Far, Far) == 2.0
  {
  }

  /** The vertical snap of the same drop: B's center moves onto A's center at x = 50, so B ends at (0, 50). */
  lemma DropSnapsOntoCenter(b: PartBounds, m: Match)
    requires b.location.x == 2.0 && b.location.y == 50.0 && b.location.width == 100.0 && b.location.height == 50.0
    requires b.actual.x == 2.0 && b.actual.y == 50.0
    requires m.spot == Center && m.otherSpot == Center && m.other.bounds.x == 0.0 && m.other.bounds.width == 100.0
    ensures Snapped(b, Vertical, Best(2.0, Some(m))).location == Rect(0.0, 50.0, 100.0, 50.0)
  {
    SnapLandsOnTarget(b, Vertical, 2.0, m);
  }

  /** The five differences of the example above. */
  lemma DropDiffs(dragged: Rect, other: Rect)
    requires dragged.y == 48.0 && dragged.height == 50.0
    requires other.y == 0.0 && other.height == 50.0
    ensures Diff(dragged, other, Horizontal, Center, Center) == 48.0
    ensures Diff(dragged, other, Horizontal, Near, Near) == 48.0
    ensures Diff(dragged, other, Horizontal, Near, Far) == 2.0
    ensures Diff(dragged, other, Horizontal, Far, Near) == 98.0
    ensures Diff(dragged, other, Horizontal, Far, Far) == 48.0
  {
  }
}
