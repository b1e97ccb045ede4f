/** The merged-pull-request arcs of `merged-pr-entity.js`. A data row whose
    two ends are valid and far enough apart gets a line mesh, a hit mesh
    and a landing, all at the same position of three parallel lists. Each
    `update` may start the line at the new visible index; an animating line
    grows along its tube, pauses, retreats from its start and then ends,
    and its landing dot shrinks away. The meshes are modelled as records in
    those lists and an animated entry holds the position of its line, so
    `animated.line == this.highlightedMesh` becomes a comparison of
    positions. Curve geometry is not part of this model: the distance test
    and the index count of a line's tube are parameters. */
module MergedPrEntity {
  import opened JsValues
  import opened Utils

  const TUBE_RADIUS_SEGMENTS: real := 3.0
  const HIT_DETAIL_FRACTION: real := 4.0
  const DATA_INCREMENT_SPEED: real := 1.5
  const PAUSE_LENGTH_FACTOR: real := 2.0
  const MIN_PAUSE: real := 3000.0
  const LINE_ANIMATION_SPEED: real := 600.0
  /** `animateLandingIn` and `animateLandingOut` thresholds and rates. */
  const LANDED: real := 0.99
  const GONE: real := 0.01
  const LANDING_RATE: real := 0.06
  const SHRINK_RATE: real := 0.15

  /** A data row's opening and merging locations after unary `+`. */
  datatype Row = Row(gop: Coordinates, gm: Coordinates)

  /** `geometry.drawRange` */
  datatype DrawRange = DrawRange(start: real, count: real)

  datatype Material = TubeMaterial | HighlightMaterial

  /** A line mesh: its data row, its tube's index count, its draw range and
      its material. */
  datatype LineMesh = LineMesh(dataIndex: nat, max: nat, draw: DrawRange, material: Material)

  /** A hit mesh with its `userData` and draw range. */
  datatype HitMesh = HitMesh(dataIndex: nat, lineMeshIndex: nat, draw: DrawRange)

  /** The `{ pos, lookAt }` of a landing, kept as the merge location. */
  datatype Landing = Landing(location: Coordinates, dataIndex: nat)

  /** An animated object: the position of its line and hit mesh (`None`
      once `endAnimation` has nulled them), the scale of its landing dot and
      of its fading ring (`None` once the ring is removed). */
  datatype Animated = Animated(line: Option<nat>, dotScale: real, dotFade: Option<real>)

  /** Whether a row gets an arc: both ends valid and their distance over
      1.5, the distance test being `far`. */
  predicate GetsArc(r: Row, far: (Coordinates, Coordinates) -> bool) {
    HasValidCoordinates(r.gop) && HasValidCoordinates(r.gm) && far(r.gop, r.gm)
  }

  /** The data rows below `n` that get an arc, in order. */
  function ArcRows(rows: seq<Row>, n: nat, far: (Coordinates, Coordinates) -> bool): (idx: seq<nat>)
    requires n <= |rows|
    ensures |idx| <= n
    ensures forall k :: 0 <= k < |idx| ==> idx[k] < n && GetsArc(rows[idx[k]], far)
    ensures forall k, l :: 0 <= k < l < |idx| ==> idx[k] < idx[l]
    ensures forall i :: 0 <= i < n && GetsArc(rows[i], far) ==> i in idx
  {
    if n == 0 then []
    else ArcRows(rows, n - 1, far) + (if GetsArc(rows[n - 1], far) then [n - 1] else [])
  }

  /** The three lists stay in lockstep: position `k` of each belongs to the
      same data row, and the hit mesh knows its position. */
  ghost predicate Lockstep(lines: seq<LineMesh>, hits: seq<HitMesh>, landings: seq<Landing>) {
    |hits| == |lines| && |landings| == |lines| &&
    forall k :: 0 <= k < |lines| ==>
      hits[k].lineMeshIndex == k && hits[k].dataIndex == lines[k].dataIndex &&
      landings[k].dataIndex == lines[k].dataIndex
  }

  /** The construction loop of `init`: one line, hit mesh and landing per
      row that gets an arc, each drawing nothing yet. */
  method BuildLines(rows: seq<Row>, maxAmount: nat, far: (Coordinates, Coordinates) -> bool,
                    indexCount: (Coordinates, Coordinates) -> nat)
    returns (lines: seq<LineMesh>, hits: seq<HitMesh>, landings: seq<Landing>)
    requires maxAmount <= |rows|
    ensures Lockstep(lines, hits, landings)
    ensures |lines| == |ArcRows(rows, maxAmount, far)|
    ensures forall k :: 0 <= k < |lines| ==>
      var i := ArcRows(rows, maxAmount, far)[k];
      lines[k] == LineMesh(i, indexCount(rows[i].gop, rows[i].gm), DrawRange(0.0, 0.0), TubeMaterial) &&
      hits[k].draw == DrawRange(0.0, 0.0) && landings[k].location == rows[i].gm
  {
    lines, hits, landings := [], [], [];
    var i := 0;
    while i < maxAmount
      invariant 0 <= i <= maxAmount
      invariant Lockstep(lines, hits, landings)
      invariant |lines| == |ArcRows(rows, i, far)|
      invariant forall k :: 0 <= k < |lines| ==>
        var j := ArcRows(rows, i, far)[k];
        lines[k] == LineMesh(j, indexCount(rows[j].gop, rows[j].gm), DrawRange(0.0, 0.0), TubeMaterial) &&
        hits[k].draw == DrawRange(0.0, 0.0) && landings[k].location == rows[j].gm
    {
      var row := rows[i];
      if HasValidCoordinates(row.gop) && HasValidCoordinates(row.gm) && far(row.gop, row.gm) {
        landings := landings + [Landing(row.gm, i)];
        var line := LineMesh(i, indexCount(row.gop, row.gm), DrawRange(0.0, 0.0), TubeMaterial);
        var hit := HitMesh(i, |lines|, DrawRange(0.0, 0.0));
        lines := lines + [line];
        hits := hits + [hit];
      }
      i := i + 1;
    }
  }

  /** `animateLandingIn`: the dot and its ring grow 6% of the way to full
      size; once the dot is nearly full size the ring is removed. The ring
      is only missing after the dot has landed. */
  function LandIn(a: Animated): (r: Animated)
    requires a.dotFade.None? ==> a.dotScale > LANDED
    ensures r.line == a.line
    ensures r.dotFade.None? ==> r.dotScale > LANDED
    ensures a.dotScale <= 1.0 ==> a.dotScale <= r.dotScale <= 1.0
    ensures a.dotScale > LANDED ==> r.dotScale == a.dotScale && r.dotFade.None?
    ensures a.dotScale <= LANDED ==> 1.0 - r.dotScale == (1.0 - LANDING_RATE) * (1.0 - a.dotScale)
  {
    if a.dotScale > LANDED then a.(dotFade := None)
    else
      var scale := a.dotScale + (1.0 - a.dotScale) * LANDING_RATE;
      var fade := a.dotFade.value;
      a.(dotScale := scale, dotFade := Some(fade + (1.0 - fade) * LANDING_RATE))
  }

  /** `animateLandingOut`: `None` when the entry ends (its dot is below
      0.01), otherwise the entry with its dot 15% smaller. */
  function LandOut(a: Animated): (r: Option<Animated>)
    ensures r.None? <==> a.dotScale < GONE
    ensures r.Some? ==> r.value.line == a.line && r.value.dotFade == a.dotFade
    ensures r.Some? ==> r.value.dotScale == (1.0 - SHRINK_RATE) * a.dotScale
    ensures r.Some? && a.dotScale > 0.0 ==> 0.0 < r.value.dotScale < a.dotScale
  {
    if a.dotScale < GONE then None
    else Some(a.(dotScale := a.dotScale - a.dotScale * SHRINK_RATE))
  }

  /** The landing-out pass: the entries that go on, each shrunk once, in
      order. */
  function LandOutAll(es: seq<Animated>): (r: seq<Animated>)
    ensures |r| <= |es|
  {
    if es == [] then []
    else
      var last := LandOut(es[|es| - 1]);
      LandOutAll(es[..|es| - 1]) + (if last.Some? then [last.value] else [])
  }

  /** Entries leave the landing-out list exactly when their dot is below
      0.01: the survivors are the others, each shrunk once. */
  lemma {:induction false} LandOutAllKeeps(es: seq<Animated>)
    ensures |LandOutAll(es)| == |es| - Dropped(es)
    ensures forall a :: a in LandOutAll(es) ==> exists b :: b in es && b.dotScale >= GONE && LandOut(b) == Some(a)
  {
    if es != [] {
      LandOutAllKeeps(es[..|es| - 1]);
      forall a | a in LandOutAll(es)
        ensures exists b :: b in es && b.dotScale >= GONE && LandOut(b) == Some(a)
      {
        if a in LandOutAll(es[..|es| - 1]) {
          var b :| b in es[..|es| - 1] && b.dotScale >= GONE && LandOut(b) == Some(a);
          assert b in es;
        } else {
          assert es[|es| - 1] in es;
        }
      }
    }
  }

  /** The number of entries whose dot is below 0.01. */
  function Dropped(es: seq<Animated>): nat {
    if es == [] then 0
    else Dropped(es[..|es| - 1]) + (if es[|es| - 1].dotScale < GONE then 1 else 0)
  }

  /** An entry that may be in `isAnimating` with `n` lines: it has a line,
      the ring is only missing after landing, and the dot is at most full
      size. */
  predicate InFlight(a: Animated, n: nat) {
    a.line.Some? && a.line.value < n && 0.0 <= a.dotScale <= 1.0 &&
    (a.dotFade.None? ==> a.dotScale > LANDED)
  }

  /** The draw ranges and the two lists the `isAnimating` loop builds. */
  datatype Frame = Frame(lines: seq<LineMesh>, hits: seq<HitMesh>, kept: seq<Animated>, ended: seq<Animated>)

  /** The draw range `update` sets on a retreating line: the start rounded
      up to a whole triangle strip of the tube. */
  function RetreatStart(start: real): (s: real)
    ensures start <= s < start + TUBE_RADIUS_SEGMENTS
    ensures (s / TUBE_RADIUS_SEGMENTS).Floor as real == s / TUBE_RADIUS_SEGMENTS
  {
    var c := Ceil(start / TUBE_RADIUS_SEGMENTS);
    assert (TUBE_RADIUS_SEGMENTS * c as real) / TUBE_RADIUS_SEGMENTS == c as real;
    TUBE_RADIUS_SEGMENTS * c as real
  }

  /** The hit mesh's start for a retreating line. */
  function RetreatHitStart(start: real): real {
    TUBE_RADIUS_SEGMENTS * Ceil(start / HIT_DETAIL_FRACTION / TUBE_RADIUS_SEGMENTS) as real
  }

  /** Sets both draw ranges of line `k` and of its hit mesh. */
  function SetRanges(f: Frame, k: nat, line: DrawRange, hit: DrawRange): (r: Frame)
    requires k < |f.lines| == |f.hits|
  {
    f.(lines := f.lines[k := f.lines[k].(draw := line)], hits := f.hits[k := f.hits[k].(draw := hit)])
  }

  /** Only the draw ranges of line `k` and its hit mesh change. */
  ghost predicate OnlyRangesOf(f: Frame, r: Frame, k: nat) {
    |r.lines| == |f.lines| == |r.hits| == |f.hits| &&
    (forall j :: 0 <= j < |f.lines| ==> r.lines[j] == f.lines[j].(draw := r.lines[j].draw)) &&
    (forall j :: 0 <= j < |f.hits| ==> r.hits[j] == f.hits[j].(draw := r.hits[j].draw)) &&
    (forall j :: 0 <= j < |f.lines| && j != k ==> r.lines[j] == f.lines[j] && r.hits[j] == f.hits[j])
  }

  /** One pass of the `isAnimating` loop over the entry `a`. */
  function AdvanceOne(f: Frame, a: Animated, highlighted: Option<nat>, delta: real): (r: Frame)
    requires |f.lines| == |f.hits| && InFlight(a, |f.lines|)
    ensures OnlyRangesOf(f, r, a.line.value)
    ensures (|r.kept| > 0 && r.kept == f.kept + [r.kept[|r.kept| - 1]] && r.ended == f.ended &&
             InFlight(r.kept[|r.kept| - 1], |f.lines|) && r.kept[|r.kept| - 1].line == a.line) ||
            (r.kept == f.kept && r.ended == f.ended + [a.(line := None)] &&
             r.lines[a.line.value].draw == DrawRange(0.0, 0.0) && r.hits[a.line.value].draw == DrawRange(0.0, 0.0))
  {
    var k := a.line.value;
    var max := f.lines[k].max as real;
    var count := f.lines[k].draw.count + delta * LINE_ANIMATION_SPEED;
    var start := f.lines[k].draw.start + delta * LINE_ANIMATION_SPEED;
    var b := if count >= max && start < max then LandIn(a) else a;
    if count >= max * PAUSE_LENGTH_FACTOR + MIN_PAUSE && start < max then
      if highlighted == Some(k) then f.(kept := f.kept + [b])
      else
        var s := RetreatStart(start);
        var r := SetRanges(f, k, DrawRange(s, count), DrawRange(RetreatHitStart(s), count / HIT_DETAIL_FRACTION));
        r.(kept := f.kept + [b])
    else if start < max then
      var r := SetRanges(f, k, DrawRange(0.0, count), DrawRange(0.0, count / HIT_DETAIL_FRACTION));
      r.(kept := f.kept + [b])
    else
      var r := SetRanges(f, k, DrawRange(0.0, 0.0), DrawRange(0.0, 0.0));
      r.(ended := f.ended + [a.(line := None)])
  }

  /** Every entry may be in `isAnimating`. */
  ghost predicate AllInFlight(es: seq<Animated>, n: nat) {
    forall k :: 0 <= k < |es| ==> InFlight(es[k], n)
  }

  /** The whole `isAnimating` loop. */
  function AdvanceAll(f: Frame, es: seq<Animated>, highlighted: Option<nat>, delta: real): (r: Frame)
    requires |f.lines| == |f.hits| && AllInFlight(es, |f.lines|)
    ensures |r.lines| == |f.lines| && |r.hits| == |f.hits|
  {
    if es == [] then f
    else
      var g := AdvanceAll(f, es[..|es| - 1], highlighted, delta);
      AdvanceOne(g, es[|es| - 1], highlighted, delta)
  }

  /** Each entry of `isAnimating` ends up in exactly one of the two lists:
      still animating with its line, or ended without one. Only draw ranges
      change. */
  lemma {:induction false} AdvanceAllPartition(f: Frame, es: seq<Animated>, highlighted: Option<nat>, delta: real)
    requires |f.lines| == |f.hits| && AllInFlight(es, |f.lines|)
    ensures var r := AdvanceAll(f, es, highlighted, delta);
      |r.kept| + |r.ended| == |f.kept| + |f.ended| + |es| &&
      |r.kept| >= |f.kept| && |r.ended| >= |f.ended| &&
      r.kept[..|f.kept|] == f.kept && r.ended[..|f.ended|] == f.ended &&
      (forall j :: |f.kept| <= j < |r.kept| ==> InFlight(r.kept[j], |f.lines|)) &&
      (forall j :: |f.ended| <= j < |r.ended| ==> r.ended[j].line.None?) &&
      (forall j :: 0 <= j < |f.lines| ==> r.lines[j] == f.lines[j].(draw := r.lines[j].draw)) &&
      (forall j :: 0 <= j < |f.hits| ==> r.hits[j] == f.hits[j].(draw := r.hits[j].draw))
  {
    if es != [] {
      var init := es[..|es| - 1];
      assert AllInFlight(init, |f.lines|);
      AdvanceAllPartition(f, init, highlighted, delta);
      var g := AdvanceAll(f, init, highlighted, delta);
      var r := AdvanceOne(g, es[|es| - 1], highlighted, delta);
      assert r.kept[..|g.kept|] == g.kept;
      assert r.ended[..|g.ended|] == g.ended;
      assert r.kept[..|f.kept|] == g.kept[..|f.kept|];
      assert r.ended[..|f.ended|] == g.ended[..|f.ended|];
    }
  }

  /** A paused line that is hovered is left as it is and goes on
      animating. */
  lemma HoveredLineFreezes(f: Frame, a: Animated, delta: real)
    requires |f.lines| == |f.hits| && InFlight(a, |f.lines|)
    requires var line := f.lines[a.line.value];
      line.draw.count + delta * LINE_ANIMATION_SPEED >= line.max as real * PAUSE_LENGTH_FACTOR + MIN_PAUSE &&
      line.draw.start + delta * LINE_ANIMATION_SPEED < line.max as real
    ensures var r := AdvanceOne(f, a, a.line, delta);
      r.lines == f.lines && r.hits == f.hits && r.ended == f.ended &&
      |r.kept| == |f.kept| + 1 && r.kept[|f.kept|].line == a.line
  {
  }

  /** A line in the forward phase draws from 0 to its new count, its hit
      mesh a quarter of that. */
  lemma ForwardPhase(f: Frame, a: Animated, highlighted: Option<nat>, delta: real)
    requires |f.lines| == |f.hits| && InFlight(a, |f.lines|)
    requires var line := f.lines[a.line.value];
      line.draw.count + delta * LINE_ANIMATION_SPEED < line.max as real * PAUSE_LENGTH_FACTOR + MIN_PAUSE &&
      line.draw.start + delta * LINE_ANIMATION_SPEED < line.max as real
    ensures var k := a.line.value;
      var count := f.lines[k].draw.count + delta * LINE_ANIMATION_SPEED;
      var r := AdvanceOne(f, a, highlighted, delta);
      r.lines[k].draw == DrawRange(0.0, count) &&
      r.hits[k].draw == DrawRange(0.0, count / HIT_DETAIL_FRACTION) && r.ended == f.ended
  {
  }

  /** A line that is not hovered retreats: its start moves up to the next
      multiple of 3 at or above the advanced start. */
  lemma RetreatPhase(f: Frame, a: Animated, highlighted: Option<nat>, delta: real)
    requires |f.lines| == |f.hits| && InFlight(a, |f.lines|) && highlighted != a.line
    requires var line := f.lines[a.line.value];
      line.draw.count + delta * LINE_ANIMATION_SPEED >= line.max as real * PAUSE_LENGTH_FACTOR + MIN_PAUSE &&
      line.draw.start + delta * LINE_ANIMATION_SPEED < line.max as real
    ensures var k := a.line.value;
      var start := f.lines[k].draw.start + delta * LINE_ANIMATION_SPEED;
      var r := AdvanceOne(f, a, highlighted, delta);
      start <= r.lines[k].draw.start < start + TUBE_RADIUS_SEGMENTS &&
      (r.lines[k].draw.start / TUBE_RADIUS_SEGMENTS).Floor as real == r.lines[k].draw.start / TUBE_RADIUS_SEGMENTS &&
      r.lines[k].draw.count == f.lines[k].draw.count + delta * LINE_ANIMATION_SPEED &&
      r.ended == f.ended
  {
  }

  /** A line whose start reaches its index count ends: both draw ranges are
      emptied and the entry, without its line, moves to the landing-out
      list. */
  lemma LineEnds(f: Frame, a: Animated, highlighted: Option<nat>, delta: real)
    requires |f.lines| == |f.hits| && InFlight(a, |f.lines|)
    requires var line := f.lines[a.line.value];
      line.draw.start + delta * LINE_ANIMATION_SPEED >= line.max as real
    ensures var k := a.line.value;
      var r := AdvanceOne(f, a, highlighted, delta);
      r.lines[k].draw == DrawRange(0.0, 0.0) && r.hits[k].draw == DrawRange(0.0, 0.0) &&
      r.kept == f.kept && r.ended == f.ended + [a.(line := None)]
  {
  }

  /** The start of `update`: `base` is the visible index after the wrap and
      `started` the line it starts, if any. */
  datatype Advance = Advance(base: real, started: Option<nat>)

  function NextIndex(visibleIndex: real, delta: real, n: nat): (r: Advance)
    requires visibleIndex >= 0.0 && delta >= 0.0
    ensures var next := Trunc(visibleIndex + delta * DATA_INCREMENT_SPEED);
      (next >= n ==> r.base == 0.0) && (next < n ==> r.base == visibleIndex) &&
      (r.started.Some? <==> next < n && next as real > visibleIndex) &&
      (r.started.Some? ==> r.started.value == next)
    ensures r.started.Some? ==> 1 <= r.started.value < n
  {
    var next := Trunc(visibleIndex + delta * DATA_INCREMENT_SPEED);
    if next >= n then Advance(0.0, None)
    else if next as real > visibleIndex then Advance(visibleIndex, Some(next))
    else Advance(visibleIndex, None)
  }

  /** `animatedObjectForIndex`: a new entry on line `k`, its dot and ring
      at scale 0. */
  function NewEntry(k: nat): (a: Animated)
    ensures forall n :: k < n ==> InFlight(a, n)
  {
    Animated(Some(k), 0.0, Some(0.0))
  }

  function Started(started: Option<nat>): seq<Animated> {
    if started.Some? then [NewEntry(started.value)] else []
  }

  /** The meshes are in lockstep, in data order, and exactly the
      highlighted line has the highlight material. */
  ghost predicate Arena(lines: seq<LineMesh>, hits: seq<HitMesh>, landings: seq<Landing>, highlighted: Option<nat>) {
    Lockstep(lines, hits, landings) &&
    (forall k, l :: 0 <= k < l < |lines| ==> lines[k].dataIndex < lines[l].dataIndex) &&
    (highlighted.Some? ==> highlighted.value < |lines|) &&
    (forall k :: 0 <= k < |lines| ==> (lines[k].material == HighlightMaterial <==> highlighted == Some(k)))
  }

  /** Changing draw ranges only keeps the arena as it is. */
  lemma RangesKeepArena(lines: seq<LineMesh>, hits: seq<HitMesh>, landings: seq<Landing>, highlighted: Option<nat>,
                        lines': seq<LineMesh>, hits': seq<HitMesh>)
    requires Arena(lines, hits, landings, highlighted)
    requires |lines'| == |lines| && |hits'| == |hits|
    requires forall j :: 0 <= j < |lines| ==> lines'[j] == lines[j].(draw := lines'[j].draw)
    requires forall j :: 0 <= j < |hits| ==> hits'[j] == hits[j].(draw := hits'[j].draw)
    ensures Arena(lines', hits', landings, highlighted)
  {
    forall k | 0 <= k < |lines|
      ensures lines'[k].dataIndex == lines[k].dataIndex && lines'[k].material == lines[k].material
      ensures hits'[k].dataIndex == hits[k].dataIndex && hits'[k].lineMeshIndex == hits[k].lineMeshIndex
    {
    }
  }

  class MergedPrEntity {
    var lines: seq<LineMesh>
    var hits: seq<HitMesh>
    var landings: seq<Landing>
    /** `highlightedMesh`: the position of the highlighted line. */
    var highlighted: Option<nat>
    var isAnimating: seq<Animated>
    var landingsOut: seq<Animated>
    var visibleIndex: real

    ghost predicate Valid()
      reads this
    {
      Arena(lines, hits, landings, highlighted) &&
      AllInFlight(isAnimating, |lines|) &&
      visibleIndex >= 0.0
    }

    /** `init`. */
    constructor (rows: seq<Row>, maxAmount: nat, far: (Coordinates, Coordinates) -> bool,
                 indexCount: (Coordinates, Coordinates) -> nat)
      requires maxAmount <= |rows|
      ensures Valid()
      ensures |lines| == |ArcRows(rows, maxAmount, far)|
      ensures forall k :: 0 <= k < |lines| ==>
        var i := ArcRows(rows, maxAmount, far)[k];
        lines[k] == LineMesh(i, indexCount(rows[i].gop, rows[i].gm), DrawRange(0.0, 0.0), TubeMaterial) &&
        hits[k].draw == DrawRange(0.0, 0.0) && landings[k].location == rows[i].gm
      ensures highlighted == None && isAnimating == [] && landingsOut == [] && visibleIndex == 0.0
    {
      var l, h, d := BuildLines(rows, maxAmount, far, indexCount);
      lines, hits, landings := l, h, d;
      highlighted := None;
      isAnimating, landingsOut := [], [];
      visibleIndex := 0.0;
    }

    /** `resetHighlight`: the highlighted line gets the tube material back. */
    method ResetHighlight()
      requires Valid()
      modifies this
      ensures Valid()
      ensures highlighted == None
      ensures |lines| == |old(lines)|
      ensures forall k :: 0 <= k < |lines| ==> lines[k] == old(lines)[k].(material := TubeMaterial)
      ensures hits == old(hits) && landings == old(landings) && isAnimating == old(isAnimating)
      ensures landingsOut == old(landingsOut) && visibleIndex == old(visibleIndex)
    {
      if highlighted.None? {
        return;
      }
      var k := highlighted.value;
      lines := lines[k := lines[k].(material := TubeMaterial)];
      highlighted := None;
    }

    /** `setHighlightObject` for the hit mesh at position `index`: exactly
        that line is highlighted; highlighting it again changes nothing. */
    method SetHighlightObject(index: nat)
      requires Valid() && index < |lines|
      modifies this
      ensures Valid()
      ensures highlighted == Some(index)
      ensures |lines| == |old(lines)|
      ensures forall k :: 0 <= k < |lines| ==>
        lines[k] == old(lines)[k].(material := if k == index then HighlightMaterial else TubeMaterial)
      ensures old(highlighted) == Some(index) ==> lines == old(lines)
      ensures hits == old(hits) && landings == old(landings) && isAnimating == old(isAnimating)
      ensures landingsOut == old(landingsOut) && visibleIndex == old(visibleIndex)
    {
      if highlighted == Some(index) {
        return;
      }
      lines := lines[index := lines[index].(material := HighlightMaterial)];
      if highlighted.Some? {
        var k := highlighted.value;
        lines := lines[k := lines[k].(material := TubeMaterial)];
        highlighted := None;
      }
      highlighted := Some(index);
    }

    /** `endAnimation`: empties both draw ranges and appends the entry,
        without its line, to the landing-out list. */
    method EndAnimation(a: Animated)
      requires a.line.Some? && a.line.value < |lines| == |hits|
      modifies this
      ensures var k := a.line.value;
        lines == old(lines)[k := old(lines)[k].(draw := DrawRange(0.0, 0.0))] &&
        hits == old(hits)[k := old(hits)[k].(draw := DrawRange(0.0, 0.0))]
      ensures landingsOut == old(landingsOut) + [a.(line := None)]
      ensures landings == old(landings) && highlighted == old(highlighted)
      ensures isAnimating == old(isAnimating) && visibleIndex == old(visibleIndex)
    {
      var k := a.line.value;
      lines := lines[k := lines[k].(draw := DrawRange(0.0, 0.0))];
      hits := hits[k := hits[k].(draw := DrawRange(0.0, 0.0))];
      landingsOut := landingsOut + [a.(line := None)];
    }

    /** The body of the `isAnimating` loop for one entry: `cont` is
        `continueAnimating`; `g` is the frame so far, whose ended entries
        follow `out0` in the landing-out list. */
    method Animate(ghost g: Frame, ghost out0: seq<Animated>, animated: Animated, delta: real, cont: seq<Animated>)
      returns (cont': seq<Animated>)
      requires |g.lines| == |g.hits| && InFlight(animated, |g.lines|)
      requires lines == g.lines && hits == g.hits && cont == g.kept && landingsOut == out0 + g.ended
      modifies this
      ensures var r := AdvanceOne(g, animated, highlighted, delta);
        lines == r.lines && hits == r.hits && cont' == r.kept && landingsOut == out0 + r.ended
      ensures landings == old(landings) && highlighted == old(highlighted)
      ensures isAnimating == old(isAnimating) && visibleIndex == old(visibleIndex)
    {
      var a := animated;
      var k := a.line.value;
      var max := lines[k].max as real;
      var count := lines[k].draw.count + delta * LINE_ANIMATION_SPEED;
      var start := lines[k].draw.start + delta * LINE_ANIMATION_SPEED;
      if count >= max && start < max {
        a := LandIn(a);
      }
      cont' := cont;
      if count >= max * PAUSE_LENGTH_FACTOR + MIN_PAUSE && start < max {
        if highlighted == Some(k) {
          cont' := cont' + [a];
          return;
        }
        start := TUBE_RADIUS_SEGMENTS * Ceil(start / TUBE_RADIUS_SEGMENTS) as real;
        var startHit := TUBE_RADIUS_SEGMENTS * Ceil(start / HIT_DETAIL_FRACTION / TUBE_RADIUS_SEGMENTS) as real;
        lines := lines[k := lines[k].(draw := DrawRange(start, count))];
        hits := hits[k := hits[k].(draw := DrawRange(startHit, count / HIT_DETAIL_FRACTION))];
        cont' := cont' + [a];
      } else if start < max {
        lines := lines[k := lines[k].(draw := DrawRange(0.0, count))];
        hits := hits[k := hits[k].(draw := DrawRange(0.0, count / HIT_DETAIL_FRACTION))];
        cont' := cont' + [a];
      } else {
        EndAnimation(animated);
      }
    }

    /** The head of `update`: the wrap of the visible index and the start
        of at most one new line. */
    method StartNext(delta: real)
      requires Valid() && delta >= 0.0
      modifies this
      ensures var adv := NextIndex(old(visibleIndex), delta, |lines|);
        visibleIndex == adv.base && isAnimating == old(isAnimating) + Started(adv.started)
      ensures lines == old(lines) && hits == old(hits) && landings == old(landings)
      ensures highlighted == old(highlighted) && landingsOut == old(landingsOut)
      ensures Valid()
    {
      var newVisibleIndex := Trunc(visibleIndex + delta * DATA_INCREMENT_SPEED);
      if newVisibleIndex >= |lines| {
        newVisibleIndex := 0;
        visibleIndex := 0.0;
      }
      if newVisibleIndex as real > visibleIndex {
        isAnimating := isAnimating + [NewEntry(newVisibleIndex)];
      }
    }

    /** The `isAnimating` loop, returning `continueAnimating`. */
    method AnimateAll(delta: real) returns (continueAnimating: seq<Animated>)
      requires |lines| == |hits| && AllInFlight(isAnimating, |lines|)
      modifies this
      ensures var f := AdvanceAll(Frame(old(lines), old(hits), [], []), old(isAnimating), highlighted, delta);
        lines == f.lines && hits == f.hits && continueAnimating == f.kept &&
        landingsOut == old(landingsOut) + f.ended
      ensures landings == old(landings) && highlighted == old(highlighted)
      ensures isAnimating == old(isAnimating) && visibleIndex == old(visibleIndex)
    {
      ghost var init := Frame(lines, hits, [], []);
      var entries := isAnimating;
      continueAnimating := [];
      var i := 0;
      while i < |entries|
        invariant 0 <= i <= |entries| && AllInFlight(entries[..i], |init.lines|)
        invariant var f := AdvanceAll(init, entries[..i], highlighted, delta);
          lines == f.lines && hits == f.hits && continueAnimating == f.kept &&
          landingsOut == old(landingsOut) + f.ended
        invariant landings == old(landings) && highlighted == old(highlighted)
        invariant isAnimating == old(isAnimating) && visibleIndex == old(visibleIndex)
      {
        assert entries[..i + 1][..i] == entries[..i];
        ghost var g := AdvanceAll(init, entries[..i], highlighted, delta);
        continueAnimating := Animate(g, old(landingsOut), entries[i], delta, continueAnimating);
        i := i + 1;
      }
      assert entries[..i] == entries;
    }

    /** The `animatingLandingsOut` loop, returning
        `continueAnimatingLandingOut`. */
    method LandingsOutPass() returns (continueAnimatingLandingOut: seq<Animated>)
      ensures continueAnimatingLandingOut == LandOutAll(landingsOut)
    {
      continueAnimatingLandingOut := [];
      var j := 0;
      while j < |landingsOut|
        invariant 0 <= j <= |landingsOut|
        invariant continueAnimatingLandingOut == LandOutAll(landingsOut[..j])
      {
        assert landingsOut[..j + 1][..j] == landingsOut[..j];
        var next := LandOut(landingsOut[j]);
        if next.Some? {
          continueAnimatingLandingOut := continueAnimatingLandingOut + [next.value];
        }
        j := j + 1;
      }
      assert landingsOut[..j] == landingsOut;
    }

    /** `update(delta)`, with the frame time `delta` at least 0. */
    method Update(delta: real)
      requires Valid() && delta >= 0.0
      modifies this
      ensures Valid()
      ensures var adv := NextIndex(old(visibleIndex), delta, |old(lines)|);
        var f := AdvanceAll(Frame(old(lines), old(hits), [], []), old(isAnimating) + Started(adv.started),
                            old(highlighted), delta);
        lines == f.lines && hits == f.hits && isAnimating == f.kept &&
        landingsOut == LandOutAll(old(landingsOut) + f.ended) &&
        visibleIndex == adv.base + delta * DATA_INCREMENT_SPEED
      ensures landings == old(landings) && highlighted == old(highlighted)
    {
      StartNext(delta);
      ghost var init := Frame(lines, hits, [], []);
      ghost var entries := isAnimating;
      var continueAnimating := AnimateAll(delta);
      var continueAnimatingLandingOut := LandingsOutPass();
      AdvanceAllPartition(init, entries, highlighted, delta);
      RangesKeepArena(init.lines, init.hits, landings, highlighted, lines, hits);
      assert AllInFlight(continueAnimating, |lines|);
      isAnimating := continueAnimating;
      landingsOut := continueAnimatingLandingOut;
      visibleIndex := visibleIndex + delta * DATA_INCREMENT_SPEED;
    }
  }
}
