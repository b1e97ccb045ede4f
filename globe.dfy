/** The uniform records of the globe material in `globe.js`: each shader
    compile appends one record, the `set*` methods broadcast one value into
    every record, and `dispose` drops the list. The mesh, geometry and
    shader source are not part of this model. */
module Globe {
  import opened JsValues

  /** A `Vector3`. Records hold values, so a record never shares its
      vectors with the caller. */
  datatype Vec3 = Vec3(x: real, y: real, z: real)

  /** The `{ value }` entries a compile callback puts into `shader.uniforms`. */
  datatype Uniforms = Uniforms(
    shadowDist: real,
    highlightDist: real,
    shadowPoint: Vec3,
    highlightPoint: Vec3,
    frontPoint: Vec3,
    highlightColor: Js<int>,
    frontHighlightColor: Js<int>)

  /** The names of the uniform entries. */
  datatype Field =
    ShadowDist | HighlightDist | ShadowPoint | HighlightPoint | FrontPoint |
    HighlightColor | FrontHighlightColor

  /** What a uniform entry holds. */
  datatype Value = Scalar(x: real) | Point(p: Vec3) | Color(c: Js<int>)

  /** `u[f].value`. */
  function Read(u: Uniforms, f: Field): Value {
    match f
    case ShadowDist => Scalar(u.shadowDist)
    case HighlightDist => Scalar(u.highlightDist)
    case ShadowPoint => Point(u.shadowPoint)
    case HighlightPoint => Point(u.highlightPoint)
    case FrontPoint => Point(u.frontPoint)
    case HighlightColor => Color(u.highlightColor)
    case FrontHighlightColor => Color(u.frontHighlightColor)
  }

  /** The entries some `set*` method writes, each with the kind of value it
      takes: the two distances take numbers, the three points vectors. */
  predicate Settable(f: Field, v: Value) {
    ((f == ShadowDist || f == HighlightDist) && v.Scalar?) ||
    ((f == ShadowPoint || f == HighlightPoint || f == FrontPoint) && v.Point?)
  }

  /** One record after `u[f].value = v` (or `.copy(v)` for a vector): entry
      `f` holds `v` and every other entry is unchanged. */
  function Write(u: Uniforms, f: Field, v: Value): (r: Uniforms)
    requires Settable(f, v)
    ensures Read(r, f) == v
    ensures forall g :: g != f ==> Read(r, g) == Read(u, g)
  {
    match f
    case ShadowDist => u.(shadowDist := v.x)
    case HighlightDist => u.(highlightDist := v.x)
    case ShadowPoint => u.(shadowPoint := v.p)
    case HighlightPoint => u.(highlightPoint := v.p)
    case FrontPoint => u.(frontPoint := v.p)
  }

  /** The records after the `forEach` of a setter. */
  function Broadcast(us: seq<Uniforms>, f: Field, v: Value): (r: seq<Uniforms>)
    requires Settable(f, v)
    ensures |r| == |us|
  {
    seq(|us|, i requires 0 <= i < |us| => Write(us[i], f, v))
  }

  /** After a setter every record holds the new value in that entry, and
      every other entry of every record is as it was. */
  lemma BroadcastSetsEveryRecord(us: seq<Uniforms>, f: Field, v: Value)
    requires Settable(f, v)
    ensures forall i :: 0 <= i < |us| ==> Read(Broadcast(us, f, v)[i], f) == v
    ensures forall i, g :: 0 <= i < |us| && g != f ==> Read(Broadcast(us, f, v)[i], g) == Read(us[i], g)
  {
  }

  /** Setting the same value twice is the same as setting it once. */
  lemma {:induction false} BroadcastIdempotent(us: seq<Uniforms>, f: Field, v: Value)
    requires Settable(f, v)
    ensures Broadcast(Broadcast(us, f, v), f, v) == Broadcast(us, f, v)
  {
    var once := Broadcast(us, f, v);
    forall i | 0 <= i < |us|
      ensures Write(once[i], f, v) == once[i]
    {
      WriteSame(once[i], f, v);
    }
  }

  lemma WriteSame(u: Uniforms, f: Field, v: Value)
    requires Settable(f, v) && Read(u, f) == v
    ensures Write(u, f, v) == u
  {
  }

  /** Writing two different entries commutes, so the order in which the
      frame loop calls the setters does not matter. */
  lemma {:induction false} BroadcastCommutes(us: seq<Uniforms>, f: Field, v: Value, g: Field, w: Value)
    requires Settable(f, v) && Settable(g, w) && f != g
    ensures Broadcast(Broadcast(us, f, v), g, w) == Broadcast(Broadcast(us, g, w), f, v)
  {
    var a := Broadcast(Broadcast(us, f, v), g, w);
    var b := Broadcast(Broadcast(us, g, w), f, v);
    forall i | 0 <= i < |us|
      ensures a[i] == b[i]
    {
      WriteCommutes(us[i], f, v, g, w);
    }
  }

  lemma WriteCommutes(u: Uniforms, f: Field, v: Value, g: Field, w: Value)
    requires Settable(f, v) && Settable(g, w) && f != g
    ensures Write(Write(u, f, v), g, w) == Write(Write(u, g, w), f, v)
  {
  }

  class Globe {
    /** The values captured from the props by the compile callback. */
    const shadowDist: real
    const highlightDist: real
    const highlightColor: Js<int>
    const frontHighlightColor: Js<int>
    /** `this.uniforms`: a list, or `null` after `dispose`. */
    var uniforms: Js<seq<Uniforms>>

    /** `init`: captures the props (`frontHighlightColor` defaulting to
        `0x36427d`) and starts with an empty list. */
    constructor (shadowDist: real, highlightDist: real, highlightColor: Js<int>, frontHighlightColor: Js<int>)
      ensures uniforms == Val([])
      ensures this.shadowDist == shadowDist && this.highlightDist == highlightDist
      ensures this.highlightColor == highlightColor
      ensures this.frontHighlightColor == Default(frontHighlightColor, 0x36427d)
    {
      this.shadowDist := shadowDist;
      this.highlightDist := highlightDist;
      this.highlightColor := highlightColor;
      this.frontHighlightColor := Default(frontHighlightColor, 0x36427d);
      uniforms := Val([]);
    }

    /** `onBeforeCompile`: appends one record holding the captured distances
        and colours and copies of the three points as they are now. After
        `dispose` the push fails (`threw`) and nothing changes. */
    method OnBeforeCompile(shadowPoint: Vec3, highlightPoint: Vec3, frontPoint: Vec3) returns (threw: bool)
      modifies this
      ensures threw <==> !old(uniforms).Val?
      ensures old(uniforms).Val? ==> uniforms == Val(old(uniforms).v + [Uniforms(
        shadowDist, highlightDist, shadowPoint, highlightPoint, frontPoint,
        highlightColor, frontHighlightColor)])
      ensures !old(uniforms).Val? ==> uniforms == old(uniforms)
    {
      if !uniforms.Val? {
        return true;
      }
      var record := Uniforms(shadowDist, highlightDist, shadowPoint, highlightPoint, frontPoint,
                             highlightColor, frontHighlightColor);
      uniforms := Val(uniforms.v + [record]);
      return false;
    }

    /** The `if (this.uniforms) this.uniforms.forEach(...)` shared by the
        setters. */
    method Set(f: Field, v: Value)
      requires Settable(f, v)
      modifies this
      ensures old(uniforms).Val? ==> uniforms == Val(Broadcast(old(uniforms).v, f, v))
      ensures !old(uniforms).Val? ==> uniforms == old(uniforms)
    {
      if !uniforms.Val? {
        return;
      }
      var us := uniforms.v;
      var i := 0;
      while i < |us|
        invariant 0 <= i <= |us| && |us| == |old(uniforms).v|
        invariant forall k :: 0 <= k < i ==> us[k] == Write(old(uniforms).v[k], f, v)
        invariant forall k :: i <= k < |us| ==> us[k] == old(uniforms).v[k]
      {
        us := us[i := Write(us[i], f, v)];
        i := i + 1;
      }
      assert us == Broadcast(old(uniforms).v, f, v);
      uniforms := Val(us);
    }

    /** `setShadowPoint`. */
    method SetShadowPoint(point: Vec3)
      modifies this
      ensures old(uniforms).Val? ==> uniforms == Val(Broadcast(old(uniforms).v, ShadowPoint, Point(point)))
      ensures !old(uniforms).Val? ==> uniforms == old(uniforms)
    {
      Set(ShadowPoint, Point(point));
    }

    /** `setHighlightPoint`. */
    method SetHighlightPoint(point: Vec3)
      modifies this
      ensures old(uniforms).Val? ==> uniforms == Val(Broadcast(old(uniforms).v, HighlightPoint, Point(point)))
      ensures !old(uniforms).Val? ==> uniforms == old(uniforms)
    {
      Set(HighlightPoint, Point(point));
    }

    /** `setFrontPoint`. */
    method SetFrontPoint(point: Vec3)
      modifies this
      ensures old(uniforms).Val? ==> uniforms == Val(Broadcast(old(uniforms).v, FrontPoint, Point(point)))
      ensures !old(uniforms).Val? ==> uniforms == old(uniforms)
    {
      Set(FrontPoint, Point(point));
    }

    /** `setShadowDist`. */
    method SetShadowDist(value: real)
      modifies this
      ensures old(uniforms).Val? ==> uniforms == Val(Broadcast(old(uniforms).v, ShadowDist, Scalar(value)))
      ensures !old(uniforms).Val? ==> uniforms == old(uniforms)
    {
      Set(ShadowDist, Scalar(value));
    }

    /** `setHighlightDist`. */
    method SetHighlightDist(value: real)
      modifies this
      ensures old(uniforms).Val? ==> uniforms == Val(Broadcast(old(uniforms).v, HighlightDist, Scalar(value)))
      ensures !old(uniforms).Val? ==> uniforms == old(uniforms)
    {
      Set(HighlightDist, Scalar(value));
    }

    /** `dispose`: the list becomes `null`, so every setter is a no-op from
        then on. */
    method Dispose()
      modifies this
      ensures uniforms == Null
    {
      uniforms := Null;
    }
  }
}
