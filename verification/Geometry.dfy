/**
  Restoring a window's geometry onto the monitors that exist now. Coordinates are 32-bit, the sums
  between them 64-bit and thus exact. Source: src-tauri/src/windows.rs.
 */
module Geometry {
  import opened Prelude

  const MIN_WINDOW_WIDTH: Unsigned := 960
  const MIN_WINDOW_HEIGHT: Unsigned := 640
  const MIN_VISIBLE_WINDOW_EDGE: int := 64

  // i32 and u32.
  type Signed = x: int | -0x8000_0000 <= x < 0x8000_0000
  type Unsigned = x: int | 0 <= x < 0x1_0000_0000

  datatype WorkArea = WorkArea(x: Signed, y: Signed, width: Unsigned, height: Unsigned)

  datatype Placement = Placement(x: Signed, y: Signed, width: Unsigned, height: Unsigned)

  // ---- The program's arithmetic ---------------------------------------------------------------------

  // Rust's clamp panics if the bounds are out of order.
  function Clamp(value: int, low: int, high: int): int
    requires low <= high
  {
    if value < low then low else if value > high then high else value
  }

  function ToSigned(x: int): Option<Signed> {
    if -0x8000_0000 <= x < 0x8000_0000 then Some(x) else None
  }

  function IntersectionLength(start: int, length: int, areaStart: int, areaLength: int): int {
    Min(start + length, areaStart + areaLength) - Max(start, areaStart)
  }

  function CenteredCoordinate(areaStart: Signed, areaLength: Unsigned, windowLength: Unsigned): Signed {
    var room := if areaLength < windowLength then 0 else areaLength - windowLength;
    var centered := ToSigned(areaStart + room / 2);
    if centered.Some? then centered.value else areaStart
  }

  function VisibleRange(windowLength: Unsigned, areaStart: Signed, areaLength: Unsigned): (r: (int, int)) {
    (areaStart - windowLength + MIN_VISIBLE_WINDOW_EDGE, areaStart + areaLength - MIN_VISIBLE_WINDOW_EDGE)
  }

  function ClampVisibleCoordinate(coordinate: Signed, windowLength: Unsigned, areaStart: Signed, areaLength: Unsigned): Signed
    requires windowLength + areaLength >= 2 * MIN_VISIBLE_WINDOW_EDGE
  {
    var range := VisibleRange(windowLength, areaStart, areaLength);
    var clamped := ToSigned(Clamp(coordinate, range.0, range.1));
    if clamped.Some? then clamped.value else areaStart
  }

  function ClampLength(length: Unsigned, minimum: Unsigned, areaLength: Unsigned): Unsigned {
    Clamp(length, Min(minimum, areaLength), areaLength)
  }

  predicate IsVisibleIn(p: Placement, area: WorkArea) {
    && IntersectionLength(p.x, p.width, area.x, area.width) >= MIN_VISIBLE_WINDOW_EDGE
    && IntersectionLength(p.y, p.height, area.y, area.height) >= MIN_VISIBLE_WINDOW_EDGE
  }

  // The first area in which the window is visible.
  function FirstVisible(p: Placement, areas: seq<WorkArea>): (r: Option<WorkArea>)
    ensures r.Some? ==> r.value in areas && IsVisibleIn(p, r.value)
    ensures r.None? <==> forall area <- areas :: !IsVisibleIn(p, area)
  {
    if areas == [] then None
    else if IsVisibleIn(p, areas[0]) then Some(areas[0])
    else FirstVisible(p, areas[1..])
  }

  function PrimaryOf(areas: seq<WorkArea>, primary: nat): WorkArea
    requires areas != []
  {
    if primary < |areas| then areas[primary] else areas[0]
  }

  function Fitted(p: Placement, area: WorkArea): Placement {
    p.(width := ClampLength(p.width, MIN_WINDOW_WIDTH, area.width),
       height := ClampLength(p.height, MIN_WINDOW_HEIGHT, area.height))
  }

  function Centered(p: Placement, area: WorkArea): Placement {
    p.(x := CenteredCoordinate(area.x, area.width, p.width), y := CenteredCoordinate(area.y, area.height, p.height))
  }

  function Pulled(p: Placement, area: WorkArea): Placement
    requires p.width + area.width >= 2 * MIN_VISIBLE_WINDOW_EDGE && p.height + area.height >= 2 * MIN_VISIBLE_WINDOW_EDGE
  {
    p.(x := ClampVisibleCoordinate(p.x, p.width, area.x, area.width),
       y := ClampVisibleCoordinate(p.y, p.height, area.y, area.height))
  }

  // That this definition is well-formed for all inputs says that no clamp is called with bounds out of order.
  function Normalize(p: Placement, areas: seq<WorkArea>, primary: nat): Placement {
    if areas == [] then p
    else
      var visible := FirstVisible(p, areas);
      if visible.None? then
        var target := PrimaryOf(areas, primary);
        Centered(Fitted(p, target), target)
      else
        var target := visible.value;
        VisibleLengths(p, target);
        Pulled(Fitted(p, target), target)
  }

  // ---- What the results mean ----------------------------------------------------------------------------

  // Both the window and the area are at least as long as the part they share, before and after fitting.
  lemma VisibleLengths(p: Placement, area: WorkArea)
    requires IsVisibleIn(p, area)
    ensures var f := Fitted(p, area);
            && MIN_VISIBLE_WINDOW_EDGE <= f.width <= area.width
            && MIN_VISIBLE_WINDOW_EDGE <= f.height <= area.height
  {
  }

  predicate IsInside(p: Placement, area: WorkArea) {
    && area.x <= p.x && p.x + p.width <= area.x + area.width
    && area.y <= p.y && p.y + p.height <= area.y + area.height
  }

  predicate FitsIn(p: Placement, area: WorkArea) {
    && Min(MIN_WINDOW_WIDTH, area.width) <= p.width <= area.width
    && Min(MIN_WINDOW_HEIGHT, area.height) <= p.height <= area.height
  }

  // The 32-bit fallback of the visible clamp is never taken: the exact value is always representable.
  lemma ClampVisibleIsExact(coordinate: Signed, windowLength: Unsigned, areaStart: Signed, areaLength: Unsigned)
    requires windowLength >= MIN_VISIBLE_WINDOW_EDGE && areaLength >= MIN_VISIBLE_WINDOW_EDGE
    ensures var range := VisibleRange(windowLength, areaStart, areaLength);
            && ToSigned(Clamp(coordinate, range.0, range.1)).Some?
            && IntersectionLength(ClampVisibleCoordinate(coordinate, windowLength, areaStart, areaLength),
                                  windowLength, areaStart, areaLength) >= MIN_VISIBLE_WINDOW_EDGE
  {
  }

  // It may be taken when centring on an enormous area, exactly if the centre is not representable;
  // the window lies inside the area either way.
  lemma CenteredStaysInside(areaStart: Signed, areaLength: Unsigned, windowLength: Unsigned)
    requires windowLength <= areaLength
    ensures var at := CenteredCoordinate(areaStart, areaLength, windowLength);
            && areaStart <= at && at + windowLength <= areaStart + areaLength
            && (at == areaStart + (areaLength - windowLength) / 2
                <==> areaStart + (areaLength - windowLength) / 2 < 0x8000_0000 || areaLength - windowLength < 2)
  {
  }

  // With any monitor at all, the window ends up no larger than its area and inside it or visible by
  // at least 64 pixels in both directions.
  lemma NormalizedIsReachable(p: Placement, areas: seq<WorkArea>, primary: nat)
    requires areas != []
    ensures var r := Normalize(p, areas, primary);
            var visible := FirstVisible(p, areas);
            var target := if visible.Some? then visible.value else PrimaryOf(areas, primary);
            && target in areas
            && FitsIn(r, target)
            && (if visible.Some? then IsVisibleIn(r, target) else IsInside(r, target))
  {
    var visible := FirstVisible(p, areas);
    if visible.Some? {
      var area := visible.value;
      VisibleLengths(p, area);
      var f := Fitted(p, area);
      ClampVisibleIsExact(p.x, f.width, area.x, area.width);
      ClampVisibleIsExact(p.y, f.height, area.y, area.height);
    } else {
      var area := PrimaryOf(areas, primary);
      var f := Fitted(p, area);
      CenteredStaysInside(area.x, area.width, f.width);
      CenteredStaysInside(area.y, area.height, f.height);
    }
  }

  // A window that can be reached is left alone exactly if its size is admissible there.
  lemma ReachableIsKept(p: Placement, areas: seq<WorkArea>, primary: nat)
    requires FirstVisible(p, areas).Some?
    ensures Normalize(p, areas, primary) == p <==> FitsIn(p, FirstVisible(p, areas).value)
  {
  }

  // A stretch of this length lies on both the window and the area.
  ghost predicate IsShared(from: int, length: int, start: int, windowLength: int, areaStart: int, areaLength: int) {
    && start <= from && from + length <= start + windowLength
    && areaStart <= from && from + length <= areaStart + areaLength
  }

  // So many pixels show as a stretch of the window and the area can be long.
  lemma VisibleMeansShared(length: int, start: int, windowLength: int, areaStart: int, areaLength: int)
    ensures IntersectionLength(start, windowLength, areaStart, areaLength) >= length
            <==> exists from :: IsShared(from, length, start, windowLength, areaStart, areaLength)
  {
    if IntersectionLength(start, windowLength, areaStart, areaLength) >= length {
      assert IsShared(Max(start, areaStart), length, start, windowLength, areaStart, areaLength);
    }
  }

  // ---- The nearest place ----------------------------------------------------------------------------------

  function Distance(a: int, b: int): nat {
    if a < b then b - a else a - b
  }

  // The length is admissible in the area, and no admissible length is nearer to the old one.
  ghost predicate NearestLength(was: int, is': int, minimum: int, areaLength: int) {
    var low := if minimum < areaLength then minimum else areaLength;
    && low <= is' <= areaLength
    && forall other :: low <= other <= areaLength ==> Distance(was, is') <= Distance(was, other)
  }

  // At least 64 pixels show, and at no nearer place would they.
  ghost predicate NearestVisible(was: int, is': int, length: int, areaStart: int, areaLength: int) {
    && IntersectionLength(is', length, areaStart, areaLength) >= 64
    && forall other :: IntersectionLength(other, length, areaStart, areaLength) >= 64 ==> Distance(was, is') <= Distance(was, other)
  }

  // The margins on both sides are equal, or the one behind is larger by one.
  ghost predicate InTheMiddle(at: int, length: int, areaStart: int, areaLength: int) {
    var before, behind := at - areaStart, areaStart + areaLength - (at + length);
    before >= 0 && before <= behind <= before + 1
  }

  lemma FittedIsNearest(length: Unsigned, minimum: Unsigned, areaLength: Unsigned)
    ensures NearestLength(length, ClampLength(length, minimum, areaLength), minimum, areaLength)
  {
  }

  lemma PulledIsNearest(coordinate: Signed, length: Unsigned, areaStart: Signed, areaLength: Unsigned)
    requires length >= 64 && areaLength >= 64
    ensures NearestVisible(coordinate, ClampVisibleCoordinate(coordinate, length, areaStart, areaLength), length, areaStart, areaLength)
  {
  }

  lemma CenteredIsInTheMiddle(areaStart: Signed, areaLength: Unsigned, length: Unsigned)
    requires length <= areaLength
    ensures var at := CenteredCoordinate(areaStart, areaLength, length);
            InTheMiddle(at, length, areaStart, areaLength)
            || (at == areaStart && areaStart + (areaLength - length) / 2 > 0x7FFF_FFFF)
  {
  }

  // The monitor on which the window is first visible.
  ghost predicate IsFirstVisible(p: Placement, areas: seq<WorkArea>, at: nat) {
    && at < |areas| && IsVisibleIn(p, areas[at])
    && forall i :: 0 <= i < at ==> !IsVisibleIn(p, areas[i])
  }

  lemma {:induction false} FirstVisibleIsFirst(p: Placement, areas: seq<WorkArea>, at: nat)
    requires IsFirstVisible(p, areas, at)
    ensures FirstVisible(p, areas) == Some(areas[at])
  {
    if at > 0 {
      assert !IsVisibleIn(p, areas[0]);
      assert forall i :: 0 <= i < at - 1 ==> areas[1..][i] == areas[i + 1];
      FirstVisibleIsFirst(p, areas[1..], at - 1);
    }
  }

  // A visible window goes to the nearest size and the nearest place on the first monitor that shows it.
  lemma VisibleWindowMovesLeast(p: Placement, areas: seq<WorkArea>, primary: nat, at: nat)
    requires IsFirstVisible(p, areas, at)
    ensures var r, area := Normalize(p, areas, primary), areas[at];
            && NearestLength(p.width, r.width, 960, area.width) && NearestLength(p.height, r.height, 640, area.height)
            && NearestVisible(p.x, r.x, r.width, area.x, area.width) && NearestVisible(p.y, r.y, r.height, area.y, area.height)
  {
    var area := areas[at];
    FirstVisibleIsFirst(p, areas, at);
    VisibleLengths(p, area);
    var f := Fitted(p, area);
    FittedIsNearest(p.width, 960, area.width);
    FittedIsNearest(p.height, 640, area.height);
    PulledIsNearest(p.x, f.width, area.x, area.width);
    PulledIsNearest(p.y, f.height, area.y, area.height);
    hide IsVisibleIn, NearestLength, NearestVisible, ClampLength, ClampVisibleCoordinate, FirstVisible;
  }

  // Any other goes to the middle of the primary monitor, or of the first when there is no such monitor; on
  // an axis whose middle is not representable, to the monitor's edge. Without monitors it stays.
  lemma HiddenWindowIsCentered(p: Placement, areas: seq<WorkArea>, primary: nat)
    requires forall area <- areas :: !IsVisibleIn(p, area)
    ensures areas == [] ==> Normalize(p, areas, primary) == p
    ensures areas != [] ==>
              var r, area := Normalize(p, areas, primary), if primary < |areas| then areas[primary] else areas[0];
              && NearestLength(p.width, r.width, 960, area.width) && NearestLength(p.height, r.height, 640, area.height)
              && (InTheMiddle(r.x, r.width, area.x, area.width)
                  || (r.x == area.x && area.x + (area.width - r.width) / 2 > 0x7FFF_FFFF))
              && (InTheMiddle(r.y, r.height, area.y, area.height)
                  || (r.y == area.y && area.y + (area.height - r.height) / 2 > 0x7FFF_FFFF))
  {
    if areas != [] {
      var area := if primary < |areas| then areas[primary] else areas[0];
      var f := Fitted(p, area);
      FittedIsNearest(p.width, 960, area.width);
      FittedIsNearest(p.height, 640, area.height);
      CenteredIsInTheMiddle(area.x, area.width, f.width);
      CenteredIsInTheMiddle(area.y, area.height, f.height);
    }
    hide NearestLength, InTheMiddle, CenteredCoordinate;
  }

  // ---- Idempotence --------------------------------------------------------------------------------------

  predicate Within(p: Placement, q: Placement) {
    && q.x <= p.x && p.x + p.width <= q.x + q.width
    && q.y <= p.y && p.y + p.height <= q.y + q.height
  }

  lemma {:induction false} FirstVisibleOfPart(p: Placement, q: Placement, areas: seq<WorkArea>)
    requires Within(p, q) && FirstVisible(q, areas).Some? && IsVisibleIn(p, FirstVisible(q, areas).value)
    ensures FirstVisible(p, areas) == FirstVisible(q, areas)
  {
    if !IsVisibleIn(q, areas[0]) {
      assert !IsVisibleIn(p, areas[0]);
      FirstVisibleOfPart(p, q, areas[1..]);
    }
  }

  // One axis: a window that is not smaller than its minimum shrinks and is pulled within itself.
  lemma PulledStaysWithin(start: Signed, length: Unsigned, minimum: Unsigned, areaStart: Signed, areaLength: Unsigned)
    requires length >= minimum && IntersectionLength(start, length, areaStart, areaLength) >= MIN_VISIBLE_WINDOW_EDGE
    ensures var length' := ClampLength(length, minimum, areaLength);
            && length' + areaLength >= 2 * MIN_VISIBLE_WINDOW_EDGE
            && (var start' := ClampVisibleCoordinate(start, length', areaStart, areaLength);
                start <= start' && start' + length' <= start + length)
  {
  }

  predicate AtLeastMinimum(p: Placement) {
    p.width >= MIN_WINDOW_WIDTH && p.height >= MIN_WINDOW_HEIGHT
  }

  predicate Disjoint(a: WorkArea, b: WorkArea) {
    || IntersectionLength(a.x, a.width, b.x, b.width) <= 0
    || IntersectionLength(a.y, a.height, b.y, b.height) <= 0
  }

  predicate PairwiseDisjoint(areas: seq<WorkArea>) {
    forall i, j :: 0 <= i < j < |areas| ==> Disjoint(areas[i], areas[j])
  }

  lemma InsideOneIsHiddenInOthers(p: Placement, area: WorkArea, other: WorkArea)
    requires IsInside(p, area) && (Disjoint(area, other) || Disjoint(other, area))
    ensures !IsVisibleIn(p, other)
  {
  }

  lemma {:induction false} OnlyOneCanShow(p: Placement, areas: seq<WorkArea>, at: nat)
    requires at < |areas| && IsInside(p, areas[at])
    requires forall i :: 0 <= i < |areas| && i != at ==> Disjoint(areas[at], areas[i]) || Disjoint(areas[i], areas[at])
    ensures FirstVisible(p, areas).Some? ==> FirstVisible(p, areas).value == areas[at]
  {
    if at == 0 {
      forall area <- areas[1..] ensures !IsVisibleIn(p, area) {
        var i :| 0 <= i < |areas| - 1 && areas[1..][i] == area;
        assert area == areas[i + 1];
        InsideOneIsHiddenInOthers(p, areas[0], area);
      }
    } else {
      InsideOneIsHiddenInOthers(p, areas[at], areas[0]);
      OnlyOneCanShow(p, areas[1..], at - 1);
    }
  }

  // Normalising again changes nothing, if the window was not smaller than its minimum and the
  // monitors do not overlap.
  lemma NormalizeIsIdempotent(p: Placement, areas: seq<WorkArea>, primary: nat)
    requires AtLeastMinimum(p) && PairwiseDisjoint(areas)
    ensures var r := Normalize(p, areas, primary); Normalize(r, areas, primary) == r
  {
    if areas != [] {
      NormalizedIsReachable(p, areas, primary);
      var r := Normalize(p, areas, primary);
      var visible := FirstVisible(p, areas);
      if visible.Some? {
        var area := visible.value;
        PulledStaysWithin(p.x, p.width, MIN_WINDOW_WIDTH, area.x, area.width);
        PulledStaysWithin(p.y, p.height, MIN_WINDOW_HEIGHT, area.y, area.height);
        FirstVisibleOfPart(r, p, areas);
        ReachableIsKept(r, areas, primary);
      } else {
        InvisibleIsIdempotent(p, areas, primary);
      }
    }
  }

  lemma InvisibleIsIdempotent(p: Placement, areas: seq<WorkArea>, primary: nat)
    requires PairwiseDisjoint(areas) && FirstVisible(p, areas).None?
    ensures var r := Normalize(p, areas, primary); Normalize(r, areas, primary) == r
  {
    if areas != [] {
      NormalizedIsReachable(p, areas, primary);
      var r := Normalize(p, areas, primary);
      OnlyOneCanShow(r, areas, if primary < |areas| then primary else 0);
      if FirstVisible(r, areas).Some? {
        ReachableIsKept(r, areas, primary);
      }
    }
  }

  lemma {:induction false} FirstVisibleBefore(p: Placement, areas: seq<WorkArea>, at: nat)
    requires at < |areas| && IsVisibleIn(p, areas[at])
    ensures FirstVisible(p, areas).Some?
    ensures FirstVisible(p, areas).value == areas[at] || exists k :: 0 <= k < at && FirstVisible(p, areas).value == areas[k]
  {
    if !IsVisibleIn(p, areas[0]) {
      FirstVisibleBefore(p, areas[1..], at - 1);
      if k :| 0 <= k < at - 1 && FirstVisible(p, areas[1..]).value == areas[1..][k] {
        assert areas[k + 1] == areas[1..][k];
      }
    }
  }

  // For any size: on disjoint monitors a second pass changes the window exactly if it was visible and
  // an earlier monitor is now the first to show it without admitting its size.
  lemma SecondPassChangesIff(p: Placement, areas: seq<WorkArea>, primary: nat, at: nat)
    requires PairwiseDisjoint(areas)
    requires FirstVisible(p, areas).Some? ==> at < |areas| && areas[at] == FirstVisible(p, areas).value
    ensures var r := Normalize(p, areas, primary);
            Normalize(r, areas, primary) != r <==>
              FirstVisible(p, areas).Some?
              && exists k :: 0 <= k < at && FirstVisible(r, areas) == Some(areas[k]) && !FitsIn(r, areas[k])
  {
    var r := Normalize(p, areas, primary);
    if FirstVisible(p, areas).None? {
      InvisibleIsIdempotent(p, areas, primary);
    } else {
      NormalizedIsReachable(p, areas, primary);
      FirstVisibleBefore(r, areas, at);
      ReachableIsKept(r, areas, primary);
      hide Normalize, FitsIn, FirstVisible;
    }
  }

  // Both conditions are needed: growing to the minimum can reach an earlier monitor that is narrower,
  lemma SmallWindowsMayMoveTwice()
    ensures var areas := [WorkArea(1000, 0, 500, 1000), WorkArea(0, 0, 1000, 1000)];
            var r := Normalize(Placement(900, 0, 100, 700), areas, 0);
            PairwiseDisjoint(areas) && r.width == 960 && Normalize(r, areas, 0).width == 500
  {
    var first, second := WorkArea(1000, 0, 500, 1000), WorkArea(0, 0, 1000, 1000);
    var areas := [first, second];
    assert areas[0] == first && areas[1..] == [second];
    var p := Placement(900, 0, 100, 700);
    assert !IsVisibleIn(p, first) && FirstVisible(p, [second]) == Some(second);
    var r := Normalize(p, areas, 0);
    assert r == Placement(900, 0, 960, 700);
    assert FirstVisible(r, areas) == Some(first);
  }

  // and the centre of the primary monitor may lie on an overlapping earlier one.
  lemma OverlappingMonitorsMayMoveTwice()
    ensures var areas := [WorkArea(0, 0, 900, 500), WorkArea(0, 0, 2000, 1000)];
            var p := Placement(5000, 5000, 1000, 800);
            var r := Normalize(p, areas, 1);
            AtLeastMinimum(p) && r.width == 1000 && Normalize(r, areas, 1) != r
  {
    var areas := [WorkArea(0, 0, 900, 500), WorkArea(0, 0, 2000, 1000)];
    assert areas[1..] == [areas[1]];
    var r := Normalize(Placement(5000, 5000, 1000, 800), areas, 1);
    assert r == Placement(500, 100, 1000, 800);
  }
}
