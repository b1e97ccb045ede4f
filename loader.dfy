/** The asset `Loader` of `loader.js`: manifest dispatch, its `reset`, and
    the progress sum of `update`. The network requests themselves are not
    part of this model: `Load` returns the requests it starts. */
module Loader {
  import opened JsValues
  import Utils

  /** `JSON_TYPES.DATA`. */
  const JSON_DATA: int := 0

  /** An asset's `url` is a string or an array (arrays are skipped). */
  datatype Url = UrlString(s: string) | UrlArray(parts: seq<string>)

  /** A manifest entry `{ url, id, type }`. */
  datatype Asset = Asset(id: string, url: Url, assetType: Js<int>)

  /** How `load` treats one manifest entry. */
  datatype Dispatch = Texture | Data | Skip

  /** A request `load` starts: `loadTexture(asset)` or `loadData(asset)`. */
  datatype Request = TextureRequest(asset: Asset) | DataRequest(asset: Asset)

  /** A `loadInfo` record `{ loaded, total }`. */
  datatype Progress = Progress(loaded: int, total: int)

  predicate IsImageUrl(s: string) {
    Utils.IndexOf(s, ".png") > -1 || Utils.IndexOf(s, ".jpg") > -1 ||
    Utils.IndexOf(s, ".jpeg") > -1 || Utils.IndexOf(s, ".gif") > -1
  }

  /** The branch `load` takes for one asset: an image extension anywhere in
      the url makes a texture, checked before `.json`; a `.json` url is
      loaded only for `JSON_TYPES.DATA`; array urls and everything else are
      skipped. */
  function Classify(a: Asset): Dispatch {
    match a.url
    case UrlArray(_) => Skip
    case UrlString(s) =>
      if IsImageUrl(s) then Texture
      else if Utils.IndexOf(s, ".json") > -1 then
        if a.assetType == Val(JSON_DATA) then Data else Skip
      else Skip
  }

  /** Array urls are skipped; an image url is a texture whatever else it
      names; otherwise a url naming `.json` is data exactly when its type is
      `JSON_TYPES.DATA`. */
  lemma ClassifySpec(a: Asset)
    ensures a.url.UrlArray? ==> Classify(a) == Skip
    ensures Classify(a) == Texture <==> a.url.UrlString? && IsImageUrl(a.url.s)
    ensures Classify(a) == Data <==> (a.url.UrlString? && !IsImageUrl(a.url.s) &&
                                      Utils.IsSubstring(".json", a.url.s) && a.assetType == Val(JSON_DATA))
  {
  }

  /** A url naming both an image and `.json` is loaded as a texture. */
  lemma ImageWinsOverJson()
    ensures Classify(Asset("m", UrlString("map.json.png"), Val(JSON_DATA))) == Texture
  {
    assert Utils.OccursAt("map.json.png", ".png", 8);
  }

  /** A `.json` url of another type is not loaded. */
  lemma JsonNeedsDataType()
    ensures Classify(Asset("g", UrlString("data.json"), Val(1))) == Skip
  {
    var s := "data.json";
    assert Utils.OccursAt(s, ".json", 4);
    MissingChar(s, ".png", 1);
    MissingChar(s, ".jpg", 2);
    MissingChar(s, ".jpeg", 2);
    MissingChar(s, ".gif", 1);
  }

  /** A string lacking one of `t`'s characters has no occurrence of `t`. */
  lemma MissingChar(s: string, t: string, j: nat)
    requires j < |t| && t[j] !in s
    ensures Utils.IndexOf(s, t) == -1
  {
  }

  /** The requests `load` starts for one asset: none, or one of the kind
      `Classify` picks. */
  function StartedFor(a: Asset): (rs: seq<Request>)
    ensures rs == [] <==> Classify(a) == Skip
    ensures HasTextureRequest(rs) <==> Classify(a) == Texture
    ensures HasDataRequest(rs) <==> Classify(a) == Data
    ensures forall r :: r in rs ==> r.asset == a
  {
    match Classify(a)
    case Texture => [TextureRequest(a)]
    case Data => [DataRequest(a)]
    case Skip => []
  }

  /** The requests `load` starts for a manifest, in manifest order. */
  function Requests(manifest: seq<Asset>): (rs: seq<Request>)
    ensures |rs| <= |manifest|
  {
    if manifest == [] then [] else StartedFor(manifest[0]) + Requests(manifest[1..])
  }

  /** Every request is for an asset of the manifest that is not skipped,
      and it is a texture request exactly when the asset is a texture. */
  lemma {:induction false} RequestsSound(manifest: seq<Asset>)
    ensures forall r :: r in Requests(manifest) ==> r.asset in manifest
    ensures forall r :: r in Requests(manifest) ==> (r.TextureRequest? <==> Classify(r.asset) == Texture)
    ensures forall r :: r in Requests(manifest) ==> Classify(r.asset) != Skip
  {
    if manifest != [] {
      RequestsSound(manifest[1..]);
    }
  }

  lemma {:induction false} RequestsSnoc(m: seq<Asset>, a: Asset)
    ensures Requests(m + [a]) == Requests(m) + StartedFor(a)
  {
    if m == [] {
      assert [a][1..] == [];
    } else {
      assert (m + [a])[1..] == m[1..] + [a];
      RequestsSnoc(m[1..], a);
    }
  }

  /** Every asset that is not skipped gets a request. */
  lemma {:induction false} RequestsCoverManifest(manifest: seq<Asset>, i: nat)
    requires i < |manifest| && Classify(manifest[i]) != Skip
    ensures exists r :: r in Requests(manifest) && r.asset == manifest[i]
  {
    if i == 0 {
      var r := if Classify(manifest[0]) == Texture then TextureRequest(manifest[0]) else DataRequest(manifest[0]);
      assert r in Requests(manifest);
    } else {
      RequestsCoverManifest(manifest[1..], i - 1);
      var r :| r in Requests(manifest[1..]) && r.asset == manifest[1..][i - 1];
      assert r in Requests(manifest);
    }
  }

  /** Whether `assets.textures` / `assets.data` get created for these requests. */
  predicate HasTextureRequest(rs: seq<Request>) {
    rs != [] && (rs[0].TextureRequest? || HasTextureRequest(rs[1..]))
  }

  predicate HasDataRequest(rs: seq<Request>) {
    rs != [] && (rs[0].DataRequest? || HasDataRequest(rs[1..]))
  }

  lemma {:induction false} HasRequestConcat(a: seq<Request>, b: seq<Request>)
    ensures HasTextureRequest(a + b) <==> HasTextureRequest(a) || HasTextureRequest(b)
    ensures HasDataRequest(a + b) <==> HasDataRequest(a) || HasDataRequest(b)
  {
    if a == [] {
      assert a + b == b;
    } else {
      assert (a + b)[1..] == a[1..] + b;
      HasRequestConcat(a[1..], b);
    }
  }

  /** `loadInfo` as a JavaScript object: keys in insertion order, an
      assignment to an existing key replacing its value in place. */
  function Put(info: seq<(string, Progress)>, key: string, p: Progress): (r: seq<(string, Progress)>)
    ensures KeysOf(r) == KeysOf(info) + {key}
    ensures Lookup(r, key) == Some(p)
    ensures forall k :: k != key ==> Lookup(r, k) == Lookup(info, k)
    ensures forall e :: e in r ==> e == (key, p) || e in info
  {
    if info == [] then [(key, p)]
    else if info[0].0 == key then [(key, p)] + info[1..]
    else [info[0]] + Put(info[1..], key, p)
  }

  /** The asset ids of a list of requests. */
  function RequestIds(rs: seq<Request>): (ids: set<string>)
    ensures forall r :: r in rs ==> r.asset.id in ids
    ensures forall id :: id in ids ==> exists r :: r in rs && r.asset.id == id
  {
    if rs == [] then {} else RequestIds(rs[..|rs| - 1]) + {rs[|rs| - 1].asset.id}
  }

  lemma {:induction false} RequestIdsConcat(rs: seq<Request>, more: seq<Request>)
    ensures RequestIds(rs + more) == RequestIds(rs) + RequestIds(more)
  {
    if more != [] {
      var init := more[..|more| - 1];
      assert (rs + more)[..|rs + more| - 1] == rs + init;
      RequestIdsConcat(rs, init);
    } else {
      assert rs + more == rs;
    }
  }

  /** The keys of `loadInfo`. */
  function KeysOf(info: seq<(string, Progress)>): set<string> {
    if info == [] then {} else {info[0].0} + KeysOf(info[1..])
  }

  /** `loadInfo[key]`: the first record under `key`. */
  function Lookup(info: seq<(string, Progress)>, key: string): Option<Progress> {
    if info == [] then None
    else if info[0].0 == key then Some(info[0].1)
    else Lookup(info[1..], key)
  }

  /** The sum of the truthy `loaded` values. */
  function SumLoaded(info: seq<(string, Progress)>): int {
    if info == [] then 0
    else (if info[0].1.loaded != 0 then info[0].1.loaded else 0) + SumLoaded(info[1..])
  }

  /** The sum of the truthy `total` values. */
  function SumTotal(info: seq<(string, Progress)>): int {
    if info == [] then 0
    else (if info[0].1.total != 0 then info[0].1.total else 0) + SumTotal(info[1..])
  }

  /** The fresh records that `loadTexture`/`loadData` register sum to 0/0. */
  lemma {:induction false} FreshRecordsSumToZero(info: seq<(string, Progress)>)
    requires forall e :: e in info ==> e.1 == Progress(0, 0)
    ensures SumLoaded(info) == 0 && SumTotal(info) == 0
  {
    if info != [] {
      assert info[0] in info;
      assert forall e :: e in info[1..] ==> e in info;
      FreshRecordsSumToZero(info[1..]);
    }
  }

  class Loader {
    var loadInfo: seq<(string, Progress)>
    /** Whether `assets.textures` / `assets.data` have been created. */
    var hasTextures: bool
    var hasData: bool
    var callbackIsFunction: bool

    /** The constructor calls `reset`. */
    constructor ()
      ensures loadInfo == [] && !hasTextures && !hasData && !callbackIsFunction
    {
      loadInfo := [];
      hasTextures, hasData := false, false;
      callbackIsFunction := false;
    }

    /** `reset`: empty `loadInfo` and `assets`; the interval is cleared. */
    method Reset()
      modifies this
      ensures loadInfo == [] && !hasTextures && !hasData
      ensures callbackIsFunction == old(callbackIsFunction)
    {
      loadInfo := [];
      hasTextures, hasData := false, false;
    }

    /** `load(manifest, progressCallback)`: resets, then resolves to null for
        an empty manifest; otherwise walks the manifest and starts a texture
        or data request for each asset that qualifies, registering a fresh
        `{loaded: 0, total: 0}` record under the asset's id. */
    method Load(manifest: seq<Asset>, progressCallbackIsFunction: bool)
      returns (resolvesNull: bool, requests: seq<Request>)
      modifies this
      ensures resolvesNull <==> manifest == []
      ensures requests == Requests(manifest)
      ensures callbackIsFunction == progressCallbackIsFunction
      ensures hasTextures <==> HasTextureRequest(requests)
      ensures hasData <==> HasDataRequest(requests)
      ensures forall e :: e in loadInfo ==> e.1 == Progress(0, 0)
      ensures forall r :: r in requests ==> r.asset.id in KeysOf(loadInfo)
      ensures KeysOf(loadInfo) == RequestIds(requests)
    {
      Reset();
      callbackIsFunction := progressCallbackIsFunction;
      requests := [];
      if |manifest| == 0 {
        return true, [];
      }
      resolvesNull := false;
      var i := 0;
      while i < |manifest|
        invariant 0 <= i <= |manifest|
        invariant requests == Requests(manifest[..i])
        invariant hasTextures <==> HasTextureRequest(requests)
        invariant hasData <==> HasDataRequest(requests)
        invariant forall e :: e in loadInfo ==> e.1 == Progress(0, 0)
        invariant KeysOf(loadInfo) == RequestIds(requests)
        invariant callbackIsFunction == progressCallbackIsFunction
      {
        var started := Start(manifest[i]);
        HasRequestConcat(requests, started);
        RequestIdsConcat(requests, started);
        assert manifest[..i + 1] == manifest[..i] + [manifest[i]];
        RequestsSnoc(manifest[..i], manifest[i]);
        requests := requests + started;
        i := i + 1;
      }
      assert manifest[..i] == manifest;
    }

    /** The body of the `forEach` of `load` for one asset. */
    method Start(asset: Asset) returns (started: seq<Request>)
      modifies this
      ensures started == StartedFor(asset)
      ensures hasTextures <==> old(hasTextures) || HasTextureRequest(started)
      ensures hasData <==> old(hasData) || HasDataRequest(started)
      ensures started != [] ==> loadInfo == Put(old(loadInfo), asset.id, Progress(0, 0))
      ensures started == [] ==> loadInfo == old(loadInfo)
      ensures KeysOf(loadInfo) == KeysOf(old(loadInfo)) + RequestIds(started)
      ensures callbackIsFunction == old(callbackIsFunction)
    {
      var d := Classify(asset);
      started := [];
      if d == Texture {
        hasTextures := true;
        loadInfo := Put(loadInfo, asset.id, Progress(0, 0));
        started := [TextureRequest(asset)];
      } else if d == Data {
        hasData := true;
        loadInfo := Put(loadInfo, asset.id, Progress(0, 0));
        started := [DataRequest(asset)];
      }
    }

    /** A progress event of a request: `loadInfo[id]` takes the reported
        `loaded`/`total`. When `id` has no record, because a later `load`
        has reset the records, the first property write throws a
        `TypeError` and nothing changes. */
    method RecordProgress(id: string, loaded: int, total: int) returns (threw: bool)
      modifies this`loadInfo
      ensures threw <==> id !in KeysOf(old(loadInfo))
      ensures !threw ==> loadInfo == Put(old(loadInfo), id, Progress(loaded, total))
      ensures threw ==> loadInfo == old(loadInfo)
      ensures KeysOf(loadInfo) == KeysOf(old(loadInfo))
    {
      if id !in KeysOf(loadInfo) {
        return true;
      }
      loadInfo := Put(loadInfo, id, Progress(loaded, total));
      return false;
    }

    /** `update`: when the progress callback is a function, reports the sums
        of the truthy `loaded` and `total` values of `loadInfo`; otherwise
        reports nothing. */
    method Update() returns (report: Js<(int, int)>)
      ensures callbackIsFunction ==> report == Val((SumLoaded(loadInfo), SumTotal(loadInfo)))
      ensures !callbackIsFunction ==> report == Undefined
    {
      if !callbackIsFunction {
        return Undefined;
      }
      var loaded, total := 0, 0;
      var i := 0;
      while i < |loadInfo|
        invariant 0 <= i <= |loadInfo|
        invariant loaded + SumLoaded(loadInfo[i..]) == SumLoaded(loadInfo)
        invariant total + SumTotal(loadInfo[i..]) == SumTotal(loadInfo)
      {
        assert loadInfo[i..][1..] == loadInfo[i + 1..];
        var p := loadInfo[i].1;
        if p.loaded != 0 {
          loaded := loaded + p.loaded;
        }
        if p.total != 0 {
          total := total + p.total;
        }
        i := i + 1;
      }
      return Val((loaded, total));
    }
  }
}
