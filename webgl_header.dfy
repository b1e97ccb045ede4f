/** The data preparation and start-up decisions of `webgl-header.js`: the
    primary-then-fallback data load, `filterData` (filling a missing side
    of an item from the other, the sanity checks, the insertion at a random
    position and the padding at both ends), the routing of failures in
    `init`, and the event sent when the page is hidden or shown. Fetching,
    the asset loader and the construction of the controller's scene are not
    part of this model: whether each of them succeeds is a parameter. */
module WebGLHeader {
  import opened JsValues

  /** `VISIBLE_DATA_COUNT` */
  const VISIBLE_DATA_COUNT: nat := 60

  /** A `{ lat, lon }` object of an item, its fields as read from JSON. */
  datatype Geo = Geo(lat: Json, lon: Json)

  /** A data item: the opening and merging locations (`None` for a falsy
      field), the two location labels and the two author fields. */
  datatype Item = Item(gop: Option<Geo>, gm: Option<Geo>, uol: Json, uml: Json, oa: Json, ma: Json)

  /** `item.gop || item.gm` is truthy. */
  predicate HasLocation(it: Item) {
    it.gop.Some? || it.gm.Some?
  }

  /** The four assignments that fill a missing side from the other. */
  function FillIn(it: Item): (r: Item)
    ensures HasLocation(it) ==> r.gop.Some? && r.gm.Some?
    ensures it.gop.Some? ==> r.gop == it.gop
    ensures it.gop.None? ==> r.gop == it.gm
    ensures it.gm.Some? ==> r.gm == it.gm
    ensures it.gm.None? ==> r.gm == it.gop
    ensures Truthy(it.uol) ==> r.uol == it.uol
    ensures !Truthy(it.uol) ==> r.uol == it.uml
    ensures Truthy(it.uml) ==> r.uml == it.uml
    ensures !Truthy(it.uml) ==> r.uml == r.uol
    ensures Truthy(r.uol) <==> Truthy(r.uml)
    ensures r.oa == it.oa && r.ma == it.ma
  {
    var uol := Or(it.uol, it.uml);
    it.(gop := if it.gop.Some? then it.gop else it.gm,
        gm := if it.gm.Some? then it.gm else it.gop,
        uol := uol,
        uml := Or(it.uml, uol))
  }

  /** The sanity checks on a filled-in item: every coordinate truthy (so a
      numeric 0 fails) and an author present. */
  predicate Sane(it: Item) {
    it.gop.Some? && it.gm.Some? &&
    Truthy(it.gop.value.lat) && Truthy(it.gop.value.lon) &&
    Truthy(it.gm.value.lat) && Truthy(it.gm.value.lon) &&
    Truthy(Or(it.oa, it.ma))
  }

  /** An item `filterData` keeps. */
  predicate Survives(it: Item) {
    HasLocation(it) && Sane(FillIn(it))
  }

  /** The kept items, filled in, in data order. */
  function Survivors(data: seq<Item>): (r: seq<Item>)
    ensures |r| <= |data|
    ensures forall k :: 0 <= k < |r| ==> Sane(r[k])
  {
    if data == [] then []
    else
      var last := data[|data| - 1];
      Survivors(data[..|data| - 1]) + (if Survives(last) then [FillIn(last)] else [])
  }

  /** `filtered.splice(Math.floor(r * filtered.length), 0, x)` for `r` in
      [0, 1): `x` lands at that position and the others keep their order. */
  function Insert(s: seq<Item>, x: Item, r: real): (t: seq<Item>)
    requires 0.0 <= r < 1.0
    ensures |t| == |s| + 1
    ensures var p := (r * |s| as real).Floor;
      0 <= p <= |s| && (s != [] ==> p < |s|) &&
      t[p] == x && t[..p] == s[..p] && t[p + 1..] == s[p..]
    ensures multiset(t) == multiset(s) + multiset{x}
  {
    var p := (r * |s| as real).Floor;
    FloorOfFraction(r, |s|);
    assert s == s[..p] + s[p..];
    s[..p] + [x] + s[p..]
  }

  /** `Math.floor(r * n)` for `r` in [0, 1) is a position in [0, n), or 0
      when `n` is 0. */
  lemma FloorOfFraction(r: real, n: nat)
    requires 0.0 <= r < 1.0
    ensures var p := (r * n as real).Floor; 0 <= p <= n && (n > 0 ==> p < n)
  {
    var x := r * n as real;
    assert 0.0 <= x;
    if n > 0 {
      assert x < n as real;
    } else {
      assert x == 0.0;
    }
  }

  /** The `filtered` list after the loop, `random(i)` being the draw of
      `Math.random()` at data position `i`. */
  function Shuffled(data: seq<Item>, random: nat -> real): (r: seq<Item>)
    requires forall i :: 0.0 <= random(i) < 1.0
  {
    if data == [] then []
    else
      var n := |data| - 1;
      var s := Shuffled(data[..n], random);
      if Survives(data[n]) then Insert(s, FillIn(data[n]), random(n)) else s
  }

  /** The kept items are exactly the surviving items, in some order. */
  lemma {:induction false} ShuffledIsPermutation(data: seq<Item>, random: nat -> real)
    requires forall i :: 0.0 <= random(i) < 1.0
    ensures multiset(Shuffled(data, random)) == multiset(Survivors(data))
  {
    if data != [] {
      ShuffledIsPermutation(data[..|data| - 1], random);
    }
  }

  /** An item is kept exactly when it has a location and passes the checks
      after the fill-in; what is kept is the filled-in item. */
  lemma {:induction false} KeptIffSurvives(data: seq<Item>, random: nat -> real, it: Item)
    requires forall i :: 0.0 <= random(i) < 1.0
    ensures it in Shuffled(data, random) <==> exists i :: 0 <= i < |data| && Survives(data[i]) && FillIn(data[i]) == it
  {
    ShuffledIsPermutation(data, random);
    assert it in Shuffled(data, random) <==> it in multiset(Survivors(data));
    SurvivorsMembers(data, it);
  }

  lemma {:induction false} SurvivorsMembers(data: seq<Item>, it: Item)
    ensures it in Survivors(data) <==> exists i :: 0 <= i < |data| && Survives(data[i]) && FillIn(data[i]) == it
  {
    if data != [] {
      var n := |data| - 1;
      SurvivorsMembers(data[..n], it);
      if it in Survivors(data) {
        if it in Survivors(data[..n]) {
          var i :| 0 <= i < n && Survives(data[..n][i]) && FillIn(data[..n][i]) == it;
          assert data[i] == data[..n][i];
        } else {
          assert Survives(data[n]) && FillIn(data[n]) == it;
        }
      } else {
        forall i | 0 <= i < |data| && Survives(data[i])
          ensures FillIn(data[i]) != it
        {
          if i < n {
            assert data[..n][i] == data[i];
          }
        }
      }
    }
  }

  /** The padded list: the last 60 items, the whole list, the first 60. */
  function Pad(f: seq<Item>): (r: seq<Item>) {
    Slice(f, |f| - VISIBLE_DATA_COUNT, |f|) + f + Slice(f, 0, VISIBLE_DATA_COUNT)
  }

  /** With at least 60 items the list gains 60 at each end. */
  lemma PadLong(f: seq<Item>)
    requires |f| >= VISIBLE_DATA_COUNT
    ensures Pad(f) == f[|f| - VISIBLE_DATA_COUNT..] + f + f[..VISIBLE_DATA_COUNT]
    ensures |Pad(f)| == |f| + 2 * VISIBLE_DATA_COUNT
  {
    SliceInBounds(f, |f| - VISIBLE_DATA_COUNT, |f|);
    SliceInBounds(f, 0, VISIBLE_DATA_COUNT);
  }

  /** Shorter lists follow `slice` with a negative start: the head is the
      last `2·len - 60` items when that is positive, else the whole list;
      the tail is the whole list. */
  lemma PadShort(f: seq<Item>)
    requires |f| < VISIBLE_DATA_COUNT
    ensures var from := if 2 * |f| < VISIBLE_DATA_COUNT then 0 else 2 * |f| - VISIBLE_DATA_COUNT;
      Pad(f) == f[from..] + f + f
  {
    SliceNegativeStart(f, |f| - VISIBLE_DATA_COUNT, |f|);
  }

  /** One more data item either is inserted or leaves the list as it is. */
  lemma ShuffledStep(data: seq<Item>, random: nat -> real, i: nat)
    requires forall i :: 0.0 <= random(i) < 1.0
    requires i < |data|
    ensures Shuffled(data[..i + 1], random) ==
      if Survives(data[i]) then Insert(Shuffled(data[..i], random), FillIn(data[i]), random(i))
      else Shuffled(data[..i], random)
  {
    assert data[..i + 1][..i] == data[..i];
  }

  /** `filterData`: a loop that splices each kept item into `filtered` at a
      random position, then the padding. */
  method FilterData(data: seq<Item>, random: nat -> real) returns (result: seq<Item>)
    requires forall i :: 0.0 <= random(i) < 1.0
    ensures result == Pad(Shuffled(data, random))
  {
    var filtered: seq<Item> := [];
    var i := 0;
    while i < |data|
      invariant 0 <= i <= |data|
      invariant filtered == Shuffled(data[..i], random)
    {
      ShuffledStep(data, random, i);
      var item := data[i];
      var gopOrig := item.gop;
      var gmOrig := item.gm;
      if !(gopOrig.Some? || gmOrig.Some?) {
        i := i + 1;
        continue;
      }
      item := item.(gop := if gopOrig.Some? then gopOrig else gmOrig);
      item := item.(gm := if gmOrig.Some? then gmOrig else gopOrig);
      item := item.(uol := Or(item.uol, item.uml));
      item := item.(uml := Or(item.uml, item.uol));
      assert item == FillIn(data[i]);
      if !Truthy(item.gop.value.lat) || !Truthy(item.gop.value.lon) {
        i := i + 1;
        continue;
      }
      if !Truthy(item.gm.value.lat) || !Truthy(item.gm.value.lon) {
        i := i + 1;
        continue;
      }
      if !Truthy(Or(item.oa, item.ma)) {
        i := i + 1;
        continue;
      }
      filtered := Insert(filtered, item, random(i));
      i := i + 1;
    }
    assert data[..i] == data;
    var itemsEnd := Slice(filtered, |filtered| - VISIBLE_DATA_COUNT, |filtered|);
    var itemsStart := Slice(filtered, 0, VISIBLE_DATA_COUNT);
    result := itemsEnd + filtered + itemsStart;
  }

  /** The result of `getData`: rejected, or resolved with the parsed JSON
      (`null` counts as a response that is falsy). */
  datatype Fetch = Rejected | Resolved(body: Js<seq<Item>>)

  /** What `loadData` settles with. */
  datatype LoadResult = LoadedData(items: seq<Item>) | LoadFailed

  /** A response `loadData` accepts: truthy and not empty. */
  predicate Usable(f: Fetch) {
    f.Resolved? && f.body.Val? && |f.body.v| != 0
  }

  /** `loadFallbackData`: a rejected, falsy or empty response fails. */
  function LoadFallbackData(fallback: Fetch): (r: LoadResult)
    ensures r.LoadedData? <==> Usable(fallback)
    ensures r.LoadedData? ==> r.items == fallback.body.v && r.items != []
  {
    if fallback.Resolved? && fallback.body.Val? && |fallback.body.v| != 0 then LoadedData(fallback.body.v)
    else LoadFailed
  }

  /** `loadData`: the primary response when it is usable, otherwise the
      fallback's outcome. */
  function LoadData(primary: Fetch, fallback: Fetch): (r: LoadResult)
    ensures Usable(primary) ==> r == LoadedData(primary.body.v)
    ensures !Usable(primary) ==> r == LoadFallbackData(fallback)
    ensures r.LoadedData? <==> Usable(primary) || Usable(fallback)
    ensures r.LoadedData? ==> r.items != []
  {
    if primary.Resolved? && primary.body.Val? && |primary.body.v| != 0 then LoadedData(primary.body.v)
    else LoadFallbackData(fallback)
  }

  /** The events `handleVisibilityChange` emits. */
  datatype AppEvent = Pause | Resume

  /** `handleVisibilityChange`, given the truthiness of the document's
      hidden flag (`undefined` without a visibility API). */
  function VisibilityEvent(hidden: bool): (e: AppEvent)
    ensures e == Pause <==> hidden
    ensures e == Resume <==> !hidden
  {
    if hidden then Pause else Resume
  }

  class WebGLHeader {
    /** `AppProps.data` */
    var data: seq<Item>
    /** `showFallback()` was called. */
    var fallbackShown: bool
    /** The controller was built with the data. */
    var controllerStarted: bool
    /** The visibility listener is installed. */
    var tracking: bool

    constructor ()
      ensures data == [] && !fallbackShown && !controllerStarted && !tracking
    {
      data := [];
      fallbackShown := false;
      controllerStarted := false;
      tracking := false;
    }

    /** `init`, run to completion with the outcome of the asset load, of
        the two data fetches and of starting the controller
        (`new WebGLController`, `initDataObjects` and `transitionIn`, which
        may throw, for instance without a WebGL context). The data is only
        loaded after the assets. Both a data failure and a throw while
        starting the controller reach the same `catch`, which shows the
        fallback notice and rejects; in the second case `AppProps.data`
        has already been assigned. */
    method Init(assetsLoaded: bool, primary: Fetch, fallback: Fetch, random: nat -> real,
                controllerStarts: bool) returns (resolved: bool)
      requires forall i :: 0.0 <= random(i) < 1.0
      modifies this
      ensures resolved <==> assetsLoaded && LoadData(primary, fallback).LoadedData? && controllerStarts
      ensures fallbackShown <==>
                old(fallbackShown) || (assetsLoaded && (LoadData(primary, fallback).LoadFailed? || !controllerStarts))
      ensures assetsLoaded && LoadData(primary, fallback).LoadedData? ==>
        data == Pad(Shuffled(LoadData(primary, fallback).items, random))
      ensures !(assetsLoaded && LoadData(primary, fallback).LoadedData?) ==> data == old(data)
      ensures controllerStarted <==> old(controllerStarted) || resolved
      ensures tracking <==> old(tracking) || resolved
    {
      if !assetsLoaded {
        return false;
      }
      var loaded := LoadData(primary, fallback);
      if loaded.LoadFailed? {
        fallbackShown := true;
        return false;
      }
      data := FilterData(loaded.items, random);
      if !controllerStarts {
        fallbackShown := true;
        return false;
      }
      controllerStarted := true;
      tracking := true;
      return true;
    }
  }
}
