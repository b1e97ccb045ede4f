/** The open-pull-request spikes of `open-pr-entity.js`: the neighbour
    count of every location, the spikes placed at their data rows, the
    draw window that follows the visible index, and the hovered spike.
    Geometry, matrices and shaders are not part of this model: where the
    source measures a distance, the test is the parameter `near`. */
module OpenPrEntity {
  import opened JsValues
  import opened Utils

  /** The distance bound of the neighbour count. */
  const MIN_DIST: real := 10.0
  /** The `highlightIndex` uniform that highlights no spike. */
  const NO_HIGHLIGHT: int := -9999
  /** The start values of the min/max pass. */
  const MIN_START: int := 99999
  const MAX_START: int := -1

  /** The rows with valid coordinates, in data order: the `locations` of
      `getDensities`. */
  function Locations(rows: seq<Coordinates>): (locs: seq<Coordinates>)
    ensures |locs| <= |rows|
    ensures forall k :: 0 <= k < |locs| ==> HasValidCoordinates(locs[k])
  {
    if rows == [] then []
    else
      var last := rows[|rows| - 1];
      Locations(rows[..|rows| - 1]) + (if HasValidCoordinates(last) then [last] else [])
  }

  /** The number of positions `m < j`, other than `k` itself, whose location
      is near location `k`. */
  function NeighbourCount(locs: seq<Coordinates>, k: nat, j: nat, near: (Coordinates, Coordinates) -> bool): (c: nat)
    requires k < |locs| && j <= |locs|
  {
    if j == 0 then 0
    else NeighbourCount(locs, k, j - 1, near) + (if j - 1 != k && near(locs[k], locs[j - 1]) then 1 else 0)
  }

  /** The density of location `k`: how many other locations are near it. */
  function Density(locs: seq<Coordinates>, k: nat, near: (Coordinates, Coordinates) -> bool): nat
    requires k < |locs|
  {
    NeighbourCount(locs, k, |locs|, near)
  }

  /** A location is never counted as its own neighbour, so a density is at
      most the number of other locations. */
  lemma {:induction false} NeighbourCountBound(locs: seq<Coordinates>, k: nat, j: nat, near: (Coordinates, Coordinates) -> bool)
    requires k < |locs| && j <= |locs|
    ensures NeighbourCount(locs, k, j, near) <= (if k < j then j - 1 else j)
  {
    if j > 0 {
      NeighbourCountBound(locs, k, j - 1, near);
    }
  }

  lemma DensityBound(locs: seq<Coordinates>, k: nat, near: (Coordinates, Coordinates) -> bool)
    requires k < |locs|
    ensures 0 <= Density(locs, k, near) <= |locs| - 1
  {
    NeighbourCountBound(locs, k, |locs|, near);
  }

  /** Every location is near every other: each density is `n - 1`. */
  lemma {:induction false} AllNearCount(locs: seq<Coordinates>, k: nat, j: nat, near: (Coordinates, Coordinates) -> bool)
    requires k < |locs| && j <= |locs|
    requires forall a, b :: near(a, b)
    ensures NeighbourCount(locs, k, j, near) == (if k < j then j - 1 else j)
  {
    if j > 0 {
      AllNearCount(locs, k, j - 1, near);
    }
  }

  /** One step of the min/max pass as written: a value that lowers the
      minimum is never considered for the maximum. */
  function Step(acc: (int, int), d: int): (int, int) {
    if d < acc.0 then (d, acc.1)
    else if d > acc.1 then (acc.0, d)
    else acc
  }

  /** `minDensity` and `maxDensity` after the pass over `ds`. */
  function Scan(ds: seq<int>): (int, int) {
    if ds == [] then (MIN_START, MAX_START)
    else Step(Scan(ds[..|ds| - 1]), ds[|ds| - 1])
  }

  /** `minDensity` is the least density, or 99999 when there is none (or
      when every density is at least 99999). */
  lemma {:induction false} ScanMin(ds: seq<int>)
    ensures Scan(ds).0 <= MIN_START
    ensures forall i :: 0 <= i < |ds| ==> Scan(ds).0 <= ds[i]
    ensures Scan(ds).0 == MIN_START || Scan(ds).0 in ds
    ensures ds != [] && ds[0] < MIN_START ==> Scan(ds).0 in ds
  {
    if ds != [] {
      var init := ds[..|ds| - 1];
      ScanMin(init);
      assert forall i :: 0 <= i < |init| ==> init[i] == ds[i];
      if init != [] {
        assert init[0] == ds[0];
      }
    }
  }

  /** `maxDensity` is -1 or a density found after the first position (the
      first one lowers the minimum unless it is at least 99999), so it never
      exceeds the largest density. */
  lemma {:induction false} ScanMaxMember(ds: seq<int>)
    ensures Scan(ds).1 == MAX_START || Scan(ds).1 in ds[1..] || (ds != [] && ds[0] >= MIN_START && Scan(ds).1 == ds[0])
  {
    if ds != [] {
      var init := ds[..|ds| - 1];
      ScanMaxMember(init);
      if init != [] {
        assert init[0] == ds[0];
        assert init[1..] <= ds[1..];
        assert ds[1..][|ds| - 2] == ds[|ds| - 1];
      }
    }
  }

  /** The maximum never decreases along the pass. */
  lemma {:induction false} ScanMaxGrows(ds: seq<int>, j: nat)
    requires j <= |ds|
    ensures Scan(ds[..j]).1 <= Scan(ds).1
    decreases |ds| - j
  {
    if j < |ds| {
      ScanMaxGrows(ds, j + 1);
      assert ds[..j + 1][..j] == ds[..j];
    } else {
      assert ds[..j] == ds;
    }
  }

  /** A density at a later position that is at least the first one is
      always offered to the maximum. */
  lemma {:induction false} ScanMaxAtLeast(ds: seq<int>, p: nat)
    requires 0 < p < |ds| && ds[0] <= ds[p]
    ensures Scan(ds).1 >= ds[p]
  {
    var prefix := ds[..p + 1];
    var init := ds[..p];
    assert prefix[..p] == init;
    ScanMin(init);
    assert init[0] == ds[0];
    ScanMaxGrows(ds, p + 1);
  }

  /** When the largest density also occurs after the first position,
      `maxDensity` is exact. */
  lemma {:induction false} ScanMaxExact(ds: seq<int>, p: nat)
    requires 0 < p < |ds| && ds[p] >= MAX_START
    requires forall i :: 0 <= i < |ds| ==> ds[i] <= ds[p]
    ensures Scan(ds).1 == ds[p]
  {
    ScanMaxAtLeast(ds, p);
    ScanMaxMember(ds);
    if Scan(ds).1 in ds[1..] {
      var i :| 0 <= i < |ds[1..]| && ds[1..][i] == Scan(ds).1;
      assert ds[i + 1] == Scan(ds).1;
    }
  }

  /** When the first density is the unique largest one (and below 99999),
      `maxDensity` misses it. */
  lemma {:induction false} ScanMaxMissesLeadingMax(ds: seq<int>)
    requires ds != [] && MAX_START < ds[0] < MIN_START
    requires forall i :: 0 < i < |ds| ==> ds[i] < ds[0]
    ensures Scan(ds).1 < ds[0]
  {
    ScanMaxMember(ds);
    if Scan(ds).1 in ds[1..] {
      var i :| 0 <= i < |ds[1..]| && ds[1..][i] == Scan(ds).1;
      assert ds[i + 1] == Scan(ds).1;
    }
  }

  /** Strictly decreasing densities lower the minimum at every step, so the
      maximum stays -1; a single location is the smallest case. */
  lemma {:induction false} ScanDecreasing(ds: seq<int>)
    requires ds != [] && ds[0] < MIN_START
    requires forall i, j :: 0 <= i < j < |ds| ==> ds[j] < ds[i]
    ensures Scan(ds) == (ds[|ds| - 1], MAX_START)
  {
    var init := ds[..|ds| - 1];
    if init != [] {
      ScanDecreasing(init);
    }
  }

  /** Two locations, the first with more neighbours: the largest density 5
      is reported as -1. */
  lemma ScanMissedMaximumExample()
    ensures Scan([5, 3]) == (3, MAX_START)
  {
    assert [5, 3][..1] == [5];
    assert [5][..0] == [];
  }

  /** `getDensities` over the first `maxAmount` rows: the validity filter,
      the all-pairs count and the min/max pass, in the source's order. */
  method GetDensities(data: seq<Coordinates>, maxAmount: nat, near: (Coordinates, Coordinates) -> bool)
    returns (densityValues: seq<int>, minDensity: int, maxDensity: int)
    requires maxAmount <= |data|
    ensures |densityValues| == |Locations(data[..maxAmount])|
    ensures forall k :: 0 <= k < |densityValues| ==>
      densityValues[k] == Density(Locations(data[..maxAmount]), k, near)
    ensures (minDensity, maxDensity) == Scan(densityValues)
  {
    var locations: seq<Coordinates> := [];
    var densities: seq<int> := [];
    var i := 0;
    while i < maxAmount
      invariant 0 <= i <= maxAmount
      invariant locations == Locations(data[..i])
      invariant |densities| == |locations|
      invariant forall k :: 0 <= k < |densities| ==> densities[k] == 0
    {
      assert data[..i + 1][..i] == data[..i];
      if HasValidCoordinates(data[i]) {
        locations := locations + [data[i]];
        densities := densities + [0];
      }
      i := i + 1;
    }
    var n := |locations|;
    var index1 := 0;
    while index1 < n
      invariant 0 <= index1 <= n && |densities| == n
      invariant forall k :: 0 <= k < index1 ==> densities[k] == Density(locations, k, near)
      invariant forall k :: index1 <= k < n ==> densities[k] == 0
    {
      var index2 := 0;
      ghost var before := densities;
      while index2 < n
        invariant 0 <= index2 <= n && |densities| == n
        invariant densities[index1] == NeighbourCount(locations, index1, index2, near)
        invariant forall k :: 0 <= k < n && k != index1 ==> densities[k] == before[k]
      {
        if index1 != index2 && near(locations[index1], locations[index2]) {
          densities := densities[index1 := densities[index1] + 1];
        }
        index2 := index2 + 1;
      }
      index1 := index1 + 1;
    }
    densityValues := densities;
    minDensity, maxDensity := MIN_START, MAX_START;
    var j := 0;
    while j < |densities|
      invariant 0 <= j <= |densities|
      invariant (minDensity, maxDensity) == Scan(densities[..j])
    {
      assert densities[..j + 1][..j] == densities[..j];
      var d := densities[j];
      if d < minDensity {
        minDensity := d;
      } else if d > maxDensity {
        maxDensity := d;
      }
      j := j + 1;
    }
    assert densities[..j] == densities;
  }

  /** The position among the valid rows of row `i`: the value `dIndex` has
      when `init` reaches row `i`. */
  function Rank(rows: seq<Coordinates>, i: nat): (k: nat)
    requires i <= |rows|
    ensures k <= i
  {
    |Locations(rows[..i])|
  }

  /** The location `getDensities` counted for the `k`-th valid row is that
      row itself, so `init` and `getDensities` agree on which density
      belongs to which row. */
  lemma {:induction false} RankAligned(rows: seq<Coordinates>, i: nat)
    requires i < |rows| && HasValidCoordinates(rows[i])
    ensures Rank(rows, i) < |Locations(rows)|
    ensures Locations(rows)[Rank(rows, i)] == rows[i]
    decreases |rows|
  {
    var init := rows[..|rows| - 1];
    if i == |rows| - 1 {
      assert rows[..i] == init;
    } else {
      assert init[..i] == rows[..i];
      RankAligned(init, i);
    }
  }

  /** The rank of the next row grows by one exactly when this row is valid. */
  lemma RankStep(rows: seq<Coordinates>, i: nat)
    requires i < |rows|
    ensures Rank(rows, i + 1) == Rank(rows, i) + (if HasValidCoordinates(rows[i]) then 1 else 0)
  {
    assert rows[..i + 1][..i] == rows[..i];
  }

  /** A spike written by `init`: the row's coordinates and its density. */
  datatype Spike = Spike(location: Coordinates, density: int)

  /** The spike loop of `init`: row `i` with valid coordinates writes the
      instance `i` with the next density, and its particle is appended; an
      invalid row leaves its instance unwritten. */
  method PlaceSpikes(data: seq<Coordinates>, maxAmount: nat, densityValues: seq<int>)
    returns (spikes: seq<Option<Spike>>, particles: seq<Coordinates>)
    requires maxAmount <= |data|
    requires |densityValues| == |Locations(data[..maxAmount])|
    ensures |spikes| == maxAmount
    ensures forall i :: 0 <= i < maxAmount ==> (spikes[i].Some? <==> HasValidCoordinates(data[i]))
    ensures forall i :: 0 <= i < maxAmount && spikes[i].Some? ==>
      Rank(data, i) < |densityValues| &&
      spikes[i].value == Spike(data[i], densityValues[Rank(data, i)])
    ensures particles == Locations(data[..maxAmount])
  {
    spikes := seq(maxAmount, _ => None);
    particles := [];
    var dIndex := 0;
    var i := 0;
    while i < maxAmount
      invariant 0 <= i <= maxAmount && |spikes| == maxAmount
      invariant dIndex == Rank(data, i) && particles == Locations(data[..i])
      invariant forall k :: 0 <= k < i ==> (spikes[k].Some? <==> HasValidCoordinates(data[k]))
      invariant forall k :: 0 <= k < i && spikes[k].Some? ==>
        Rank(data, k) < |densityValues| &&
        spikes[k].value == Spike(data[k], densityValues[Rank(data, k)])
      invariant forall k :: i <= k < maxAmount ==> spikes[k].None?
    {
      RankStep(data, i);
      assert data[..i + 1][..i] == data[..i];
      if HasValidCoordinates(data[i]) {
        assert data[..maxAmount][..i + 1] == data[..i + 1];
        RankPrefix(data[..maxAmount], i + 1);
        var density := densityValues[dIndex];
        dIndex := dIndex + 1;
        spikes := spikes[i := Some(Spike(data[i], density))];
        particles := particles + [data[i]];
      }
      i := i + 1;
    }
    assert data[..i] == data[..maxAmount];
  }

  /** A prefix never has more valid rows than the whole. */
  lemma {:induction false} RankPrefix(rows: seq<Coordinates>, j: nat)
    requires j <= |rows|
    ensures |Locations(rows[..j])| <= |Locations(rows)|
    decreases |rows| - j
  {
    if j < |rows| {
      RankPrefix(rows, j + 1);
      assert rows[..j + 1][..j] == rows[..j];
    } else {
      assert rows[..j] == rows;
    }
  }

  /** Each written spike carries the density of its own location. */
  lemma SpikeDensityIsOwn(data: seq<Coordinates>, maxAmount: nat, near: (Coordinates, Coordinates) -> bool, i: nat)
    requires i < maxAmount <= |data| && HasValidCoordinates(data[i])
    ensures Rank(data, i) < |Locations(data[..maxAmount])|
    ensures Locations(data[..maxAmount])[Rank(data, i)] == data[i]
  {
    assert data[..maxAmount][..i] == data[..i];
    RankAligned(data[..maxAmount], i);
  }

  /** The particles' draw window that `update` computes: the first index,
      the count handed to `setDrawRange` and the spike count. */
  datatype Window = Window(start: real, count: int, finalCount: real)

  function DrawWindow(visibleIndex: real, maxIndexDistance: real, maxAmount: nat): (w: Window)
    ensures 0.0 <= w.start <= maxAmount as real
    ensures 0.0 <= w.finalCount <= maxAmount as real
    ensures 0 <= w.count ==> w.start <= w.finalCount
    ensures 0.0 <= maxIndexDistance && 2.0 * maxIndexDistance < TWO_31 as real ==>
      0 <= w.count && w.count as real <= 2.0 * maxIndexDistance < w.count as real + 1.0
    ensures 0.0 <= visibleIndex - maxIndexDistance <= maxAmount as real && visibleIndex - maxIndexDistance < TWO_31 as real ==>
      w.start <= visibleIndex - maxIndexDistance < w.start + 1.0
    ensures -(TWO_31 as real) <= visibleIndex - maxIndexDistance <= 0.0 ==> w.start == 0.0
  {
    var start := Clamp(ToInt32(visibleIndex - maxIndexDistance) as real, 0.0, maxAmount as real);
    var count := ToInt32(maxIndexDistance * 2.0);
    var finalCount := Clamp(start + count as real, 0.0, maxAmount as real);
    Window(start, count, finalCount)
  }

  /** The spike shader's uniforms that the model follows. */
  datatype SpikeUniforms = SpikeUniforms(visibleIndex: real, highlightIndex: int)

  /** The point shader's uniforms that the model follows. */
  datatype ParticleUniforms = ParticleUniforms(visibleIndex: real)

  /** A geometry draw range; `None` is three.js's initial `(0, Infinity)`. */
  datatype DrawRange = DrawRange(start: real, count: int)

  class OpenPrEntity {
    const maxAmount: nat
    const maxIndexDistance: real
    /** The `visibleIndex` prop the compile callbacks copy. */
    const initialVisibleIndex: real
    /** The spike instances, indexed by data row. */
    const spikes: seq<Option<Spike>>
    /** The particle positions, one per valid row. */
    const particles: seq<Coordinates>
    const minDensity: int
    const maxDensity: int
    /** `undefined` until the shader is compiled, `null` after `dispose`. */
    var spikeUniforms: Js<SpikeUniforms>
    var particleUniforms: Js<ParticleUniforms>
    /** `spikes.count`; an `InstancedMesh` starts with all its instances. */
    var spikeCount: real
    var particleRange: Option<DrawRange>

    /** `init`: the densities, then the spikes and particles. */
    constructor (data: seq<Coordinates>, maxAmount: nat, maxIndexDistance: real, visibleIndex: real,
                 near: (Coordinates, Coordinates) -> bool)
      requires maxAmount <= |data|
      ensures this.maxAmount == maxAmount && this.maxIndexDistance == maxIndexDistance
      ensures initialVisibleIndex == visibleIndex
      ensures |spikes| == maxAmount
      ensures forall i :: 0 <= i < maxAmount ==> (spikes[i].Some? <==> HasValidCoordinates(data[i]))
      ensures forall i :: 0 <= i < maxAmount && spikes[i].Some? ==>
        spikes[i].value.location == data[i] && Rank(data, i) < |particles| &&
        spikes[i].value.density == Density(particles, Rank(data, i), near)
      ensures particles == Locations(data[..maxAmount])
      ensures (minDensity, maxDensity) == Scan(seq(|particles|, k requires 0 <= k < |particles| => Density(particles, k, near)))
      ensures spikeUniforms == Undefined && particleUniforms == Undefined
      ensures spikeCount == maxAmount as real && particleRange == None
    {
      var densityValues, minD, maxD := GetDensities(data, maxAmount, near);
      var s, p := PlaceSpikes(data, maxAmount, densityValues);
      this.maxAmount := maxAmount;
      this.maxIndexDistance := maxIndexDistance;
      initialVisibleIndex := visibleIndex;
      spikes := s;
      particles := p;
      minDensity := minD;
      maxDensity := maxD;
      spikeUniforms := Undefined;
      particleUniforms := Undefined;
      spikeCount := maxAmount as real;
      particleRange := None;
      assert densityValues == seq(|p|, k requires 0 <= k < |p| => Density(p, k, near));
      forall i | 0 <= i < maxAmount && s[i].Some?
        ensures Rank(data, i) < |p| && s[i].value.density == Density(p, Rank(data, i), near)
      {
        SpikeDensityIsOwn(data, maxAmount, near, i);
      }
    }

    /** The spike material's `onBeforeCompile`: no spike is highlighted. */
    method CompileSpikes()
      modifies this
      ensures spikeUniforms == Val(SpikeUniforms(initialVisibleIndex, NO_HIGHLIGHT))
      ensures particleUniforms == old(particleUniforms)
      ensures spikeCount == old(spikeCount) && particleRange == old(particleRange)
    {
      spikeUniforms := Val(SpikeUniforms(initialVisibleIndex, NO_HIGHLIGHT));
    }

    /** The point material's `onBeforeCompile`. */
    method CompileParticles()
      modifies this
      ensures particleUniforms == Val(ParticleUniforms(initialVisibleIndex))
      ensures spikeUniforms == old(spikeUniforms)
      ensures spikeCount == old(spikeCount) && particleRange == old(particleRange)
    {
      particleUniforms := Val(ParticleUniforms(initialVisibleIndex));
    }

    /** `setHighlightIndex`: writes the index once the spike uniforms exist. */
    method SetHighlightIndex(index: int)
      modifies this
      ensures old(spikeUniforms).Val? ==> spikeUniforms == Val(old(spikeUniforms).v.(highlightIndex := index))
      ensures !old(spikeUniforms).Val? ==> spikeUniforms == old(spikeUniforms)
      ensures particleUniforms == old(particleUniforms)
      ensures spikeCount == old(spikeCount) && particleRange == old(particleRange)
    {
      if spikeUniforms.Val? && spikeUniforms.v.highlightIndex != index {
        spikeUniforms := Val(spikeUniforms.v.(highlightIndex := index));
      }
    }

    /** `update`: once both shaders are compiled it moves their visible
        index and the draw window; before that it does nothing. */
    method Update(visibleIndex: real)
      modifies this
      ensures old(spikeUniforms).Val? && old(particleUniforms).Val? ==>
        var w := DrawWindow(visibleIndex, maxIndexDistance, maxAmount);
        spikeUniforms == Val(old(spikeUniforms).v.(visibleIndex := visibleIndex)) &&
        particleUniforms == Val(ParticleUniforms(visibleIndex)) &&
        spikeCount == w.finalCount && particleRange == Some(DrawRange(w.start, w.count))
      ensures !(old(spikeUniforms).Val? && old(particleUniforms).Val?) ==>
        spikeUniforms == old(spikeUniforms) && particleUniforms == old(particleUniforms) &&
        spikeCount == old(spikeCount) && particleRange == old(particleRange)
      ensures 0.0 <= spikeCount <= maxAmount as real || spikeCount == old(spikeCount)
    {
      if spikeUniforms.Val? && particleUniforms.Val? {
        spikeUniforms := Val(spikeUniforms.v.(visibleIndex := visibleIndex));
        particleUniforms := Val(particleUniforms.v.(visibleIndex := visibleIndex));
        var w := DrawWindow(visibleIndex, maxIndexDistance, maxAmount);
        spikeCount := w.finalCount;
        particleRange := Some(DrawRange(w.start, w.count));
      }
    }

    /** `dispose`: the uniforms become `null`, so `update` and
        `setHighlightIndex` do nothing from then on. */
    method Dispose()
      modifies this
      ensures spikeUniforms == Null && particleUniforms == Null
      ensures spikeCount == old(spikeCount) && particleRange == old(particleRange)
    {
      spikeUniforms := Null;
      particleUniforms := Null;
    }
  }
}
