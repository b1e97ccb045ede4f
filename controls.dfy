/** The drag-to-rotate `Controls` of `controls.js`: the pointer handlers
    and their dragging flag, the per-frame `update` with its clamped tilt
    target and eased values, and the listener registration that pause and
    resume redo. The rotation matrices are not part of this model: `Update`
    returns the angles it would rotate the globe by. */
module Controls {
  import Utils

  /** `ROTATION_OFFSET.x` of `constants.js`. */
  const ROTATION_OFFSET_X: real := 0.3
  /** The easing factor of `autoRotationSpeedScalar`. */
  const SCALAR_EASING: real := 0.05

  datatype Vec2 = Vec2(x: real, y: real)

  /** `current += (target - current) * factor`. */
  function Eased(current: real, target: real, factor: real): (r: real)
    ensures target - r == (1.0 - factor) * (target - current)
    ensures 0.0 <= factor <= 1.0 ==> Utils.Min(current, target) <= r <= Utils.Max(current, target)
  {
    var r := current + (target - current) * factor;
    if 0.0 <= factor <= 1.0 then EasedBetween(current, target, factor); r else r
  }

  lemma EasedBetween(current: real, target: real, factor: real)
    requires 0.0 <= factor <= 1.0
    ensures Utils.Min(current, target) <= current + (target - current) * factor <= Utils.Max(current, target)
  {
    var d := target - current;
    var step := d * factor;
    if current <= target {
      Utils.MulLe(d, factor);
      assert 0.0 <= step <= d;
    } else {
      Utils.MulLe(-d, factor);
      assert -d * factor == -step;
      assert d <= step <= 0.0;
    }
    assert current + (target - current) * factor == current + step;
  }

  /** An eased value that starts at its target stays there. */
  lemma EasedAtTarget(target: real, factor: real)
    ensures Eased(target, target, factor) == target
  {
  }

  /** `setMouse`: the pointer as normalised device coordinates of the
      parent's bounding box, x growing to the right and y upwards. */
  function MouseFor(clientX: real, clientY: real, width: real, height: real): (m: Vec2)
    requires width > 0.0 && height > 0.0
    ensures clientX == 0.0 ==> m.x == -1.0
    ensures clientX == width ==> m.x == 1.0
    ensures clientY == 0.0 ==> m.y == 1.0
    ensures clientY == height ==> m.y == -1.0
  {
    Utils.SelfDiv(width);
    Utils.SelfDiv(height);
    Vec2((clientX / width) * 2.0 - 1.0, -(clientY / height) * 2.0 + 1.0)
  }

  /** Both coordinates are the affine map of the box onto [-1, 1] (y
      flipped) that `utils.js` calls `map`. */
  lemma MouseIsMap(clientX: real, clientY: real, width: real, height: real)
    requires width > 0.0 && height > 0.0
    ensures MouseFor(clientX, clientY, width, height).x == Utils.Map(clientX, 0.0, width, -1.0, 1.0)
    ensures MouseFor(clientX, clientY, width, height).y == Utils.Map(clientY, 0.0, height, 1.0, -1.0)
  {
  }

  /** The DOM events the controls listen to. */
  datatype EventType =
    MouseDown | MouseMove | MouseUp | MouseOut | MouseLeave |
    TouchStart | TouchMove | TouchEnd | TouchCancel

  /** The bound handlers. */
  datatype Handler =
    OnMouseDown | OnMouseMove | OnMouseUp | OnMouseOut |
    OnTouchStart | OnTouchMove | OnTouchEnd

  datatype Binding = Binding(event: EventType, handler: Handler)

  /** The nine registrations of `addListeners`, in order. */
  const BINDINGS: seq<Binding> := [
    Binding(MouseDown, OnMouseDown), Binding(MouseMove, OnMouseMove),
    Binding(MouseUp, OnMouseUp), Binding(MouseOut, OnMouseOut),
    Binding(MouseLeave, OnMouseOut), Binding(TouchStart, OnTouchStart),
    Binding(TouchMove, OnTouchMove), Binding(TouchEnd, OnTouchEnd),
    Binding(TouchCancel, OnTouchEnd)]

  predicate Distinct(bs: seq<Binding>) {
    forall i, j :: 0 <= i < j < |bs| ==> bs[i] != bs[j]
  }

  lemma BindingsDistinct()
    ensures Distinct(BINDINGS)
  {
  }

  /** `removeEventListener`: the element's listener list without `b`. */
  function Remove(reg: seq<Binding>, b: Binding): (r: seq<Binding>)
    ensures forall x :: x in r <==> x in reg && x != b
    ensures b !in reg ==> r == reg
  {
    if reg == [] then []
    else if reg[0] == b then Remove(reg[1..], b)
    else [reg[0]] + Remove(reg[1..], b)
  }

  /** `addEventListener`: appends `b` unless it is already registered. */
  function Add(reg: seq<Binding>, b: Binding): (r: seq<Binding>)
    ensures b in reg ==> r == reg
    ensures b !in reg ==> r == reg + [b]
  {
    if b in reg then reg else reg + [b]
  }

  function RemoveAll(reg: seq<Binding>, bs: seq<Binding>): seq<Binding>
    decreases |bs|
  {
    if bs == [] then reg else RemoveAll(Remove(reg, bs[0]), bs[1..])
  }

  function AddAll(reg: seq<Binding>, bs: seq<Binding>): seq<Binding>
    decreases |bs|
  {
    if bs == [] then reg else AddAll(Add(reg, bs[0]), bs[1..])
  }

  /** The listener list after `addListeners`. */
  function Registered(reg: seq<Binding>): seq<Binding> {
    AddAll(RemoveAll(reg, BINDINGS), BINDINGS)
  }

  lemma {:induction false} RemoveAllSpec(reg: seq<Binding>, bs: seq<Binding>)
    ensures forall x :: x in RemoveAll(reg, bs) <==> x in reg && x !in bs
    decreases |bs|
  {
    if bs != [] {
      RemoveAllSpec(Remove(reg, bs[0]), bs[1..]);
    }
  }

  lemma {:induction false} AddAllFresh(reg: seq<Binding>, bs: seq<Binding>)
    requires Distinct(bs) && forall b :: b in bs ==> b !in reg
    ensures AddAll(reg, bs) == reg + bs
    decreases |bs|
  {
    if bs != [] {
      assert bs[0] in bs;
      assert Add(reg, bs[0]) == reg + [bs[0]];
      forall b | b in bs[1..]
        ensures b !in reg + [bs[0]]
      {
        var k :| 0 <= k < |bs[1..]| && bs[1..][k] == b;
        assert bs[k + 1] == b;
      }
      AddAllFresh(reg + [bs[0]], bs[1..]);
      assert reg + [bs[0]] + bs[1..] == reg + bs;
    }
  }

  /** `addListeners` leaves the element's other listeners in place and then
      holds each of the nine registrations exactly once, in order. */
  lemma RegisteredOnce(reg: seq<Binding>)
    ensures Registered(reg) == RemoveAll(reg, BINDINGS) + BINDINGS
  {
    BindingsDistinct();
    RemoveAllSpec(reg, BINDINGS);
    AddAllFresh(RemoveAll(reg, BINDINGS), BINDINGS);
  }

  /** On an element without any of the handlers, `addListeners` leaves
      exactly the nine registrations. */
  lemma RegisteredOnFreshElement()
    ensures Registered([]) == BINDINGS
  {
    RegisteredOnce([]);
    RemoveAllUntouched([], BINDINGS);
  }

  lemma {:induction false} RemoveConcat(a: seq<Binding>, c: seq<Binding>, b: Binding)
    ensures Remove(a + c, b) == Remove(a, b) + Remove(c, b)
  {
    if a == [] {
      assert a + c == c;
    } else {
      assert (a + c)[1..] == a[1..] + c;
      RemoveConcat(a[1..], c, b);
    }
  }

  lemma {:induction false} RemoveAllConcat(a: seq<Binding>, c: seq<Binding>, bs: seq<Binding>)
    ensures RemoveAll(a + c, bs) == RemoveAll(a, bs) + RemoveAll(c, bs)
    decreases |bs|
  {
    if bs != [] {
      RemoveConcat(a, c, bs[0]);
      RemoveAllConcat(Remove(a, bs[0]), Remove(c, bs[0]), bs[1..]);
    }
  }

  lemma {:induction false} RemoveAllUntouched(reg: seq<Binding>, bs: seq<Binding>)
    requires forall x :: x in reg ==> x !in bs
    ensures RemoveAll(reg, bs) == reg
    decreases |bs|
  {
    if bs != [] {
      assert bs[0] in bs;
      RemoveAllUntouched(reg, bs[1..]);
    }
  }

  lemma {:induction false} RemoveAllSelf(bs: seq<Binding>)
    requires Distinct(bs)
    ensures RemoveAll(bs, bs) == []
    decreases |bs|
  {
    if bs != [] {
      assert bs[0] !in bs[1..] by {
        forall k | 0 <= k < |bs[1..]| ensures bs[1..][k] != bs[0] {
          assert bs[1..][k] == bs[k + 1];
        }
      }
      assert Remove(bs, bs[0]) == bs[1..];
      RemoveAllSelf(bs[1..]);
    }
  }

  /** Pausing and then resuming registers exactly what resuming alone
      does. */
  lemma RegisteredAfterRemove(reg: seq<Binding>)
    ensures Registered(RemoveAll(reg, BINDINGS)) == Registered(reg)
  {
    var rest := RemoveAll(reg, BINDINGS);
    RemoveAllSpec(reg, BINDINGS);
    RemoveAllUntouched(rest, BINDINGS);
  }

  /** Resuming twice registers each handler once: `addListeners` is
      idempotent. */
  lemma RegisteredIdempotent(reg: seq<Binding>)
    ensures Registered(Registered(reg)) == Registered(reg)
  {
    var rest := RemoveAll(reg, BINDINGS);
    RegisteredOnce(reg);
    RemoveAllConcat(rest, BINDINGS, BINDINGS);
    RemoveAllSpec(reg, BINDINGS);
    RemoveAllUntouched(rest, BINDINGS);
    BindingsDistinct();
    RemoveAllSelf(BINDINGS);
    assert RemoveAll(rest + BINDINGS, BINDINGS) == rest;
  }

  class Controls {
    /** Props, with `easing` and `maxRotationX` after their defaults. */
    const rotateSpeed: real
    const autoRotationSpeed: real
    const easing: real
    const maxRotationX: real
    /** Whether `setDraggingCallback` is a function. */
    const callbackIsFunction: bool

    var dragging: bool
    var mouse: Vec2
    var lastMouse: Vec2
    var targetX: real
    var targetY: real
    var velocity: Vec2
    var autoRotationSpeedScalar: real
    var autoRotationSpeedScalarTarget: real
    /** `objectContainer.rotation.x`. */
    var tiltX: real
    /** The arguments passed to `setDraggingCallback`, oldest first. */
    var draggingCalls: seq<bool>
    /** The listeners registered on `domElement`. */
    var listeners: seq<Binding>
    /** Whether `handlePause` and `handleResume` are subscribed to the
        `PAUSE` and `RESUME` events of the event manager. */
    var pauseResumeSubscribed: bool

    /** The tilt target lies in the range the clamp of `update` enforces. */
    predicate TiltBounded()
      reads this
    {
      maxRotationX >= 0.0 ==> -maxRotationX <= targetY <= maxRotationX * 0.6
    }

    /** `init`: pointer at (0.5, 0.5), targets and velocity zero, scalars
        1, and `addListeners` on the renderer's canvas, which holds none of
        these handlers yet and so ends with the nine registrations
        (`RegisteredOnFreshElement`). */
    constructor (rotateSpeed: real, autoRotationSpeed: real, easing: real, maxRotationX: real,
                 callbackIsFunction: bool)
      ensures this.rotateSpeed == rotateSpeed && this.autoRotationSpeed == autoRotationSpeed
      ensures this.easing == easing && this.maxRotationX == maxRotationX
      ensures this.callbackIsFunction == callbackIsFunction
      ensures !dragging && mouse == Vec2(0.5, 0.5) && lastMouse == Vec2(0.5, 0.5)
      ensures targetX == 0.0 && targetY == 0.0 && velocity == Vec2(0.0, 0.0)
      ensures autoRotationSpeedScalar == 1.0 && autoRotationSpeedScalarTarget == 1.0
      ensures draggingCalls == []
      ensures listeners == BINDINGS && pauseResumeSubscribed
      ensures TiltBounded()
    {
      this.rotateSpeed := rotateSpeed;
      this.autoRotationSpeed := autoRotationSpeed;
      this.easing := easing;
      this.maxRotationX := maxRotationX;
      this.callbackIsFunction := callbackIsFunction;
      dragging := false;
      mouse := Vec2(0.5, 0.5);
      lastMouse := Vec2(0.5, 0.5);
      targetX, targetY := 0.0, 0.0;
      velocity := Vec2(0.0, 0.0);
      autoRotationSpeedScalar := 1.0;
      autoRotationSpeedScalarTarget := 1.0;
      draggingCalls := [];
      listeners := BINDINGS;
      pauseResumeSubscribed := true;
    }

    /** `setDragging`: stores the flag and forwards it to the callback when
        that is a function. */
    method SetDragging(d: bool)
      modifies this`dragging, this`draggingCalls
      ensures dragging == d
      ensures draggingCalls == old(draggingCalls) + (if callbackIsFunction then [d] else [])
      ensures mouse == old(mouse) && lastMouse == old(lastMouse)
      ensures targetX == old(targetX) && targetY == old(targetY) && velocity == old(velocity)
      ensures autoRotationSpeedScalar == old(autoRotationSpeedScalar)
      ensures autoRotationSpeedScalarTarget == old(autoRotationSpeedScalarTarget)
      ensures tiltX == old(tiltX) && listeners == old(listeners)
    {
      dragging := d;
      if callbackIsFunction {
        draggingCalls := draggingCalls + [d];
      }
    }

    /** `setMouse`, with the parent's bounding box passed in. */
    method SetMouse(clientX: real, clientY: real, width: real, height: real)
      requires width > 0.0 && height > 0.0
      modifies this`mouse
      ensures mouse == MouseFor(clientX, clientY, width, height)
      ensures dragging == old(dragging) && draggingCalls == old(draggingCalls)
      ensures lastMouse == old(lastMouse)
      ensures targetX == old(targetX) && targetY == old(targetY) && velocity == old(velocity)
      ensures autoRotationSpeedScalar == old(autoRotationSpeedScalar)
      ensures autoRotationSpeedScalarTarget == old(autoRotationSpeedScalarTarget)
      ensures tiltX == old(tiltX) && listeners == old(listeners)
    {
      mouse := MouseFor(clientX, clientY, width, height);
    }

    /** `handleMouseDown`. */
    method HandleMouseDown(clientX: real, clientY: real, width: real, height: real)
      requires width > 0.0 && height > 0.0
      modifies this`mouse, this`dragging, this`draggingCalls
      ensures dragging
      ensures mouse == MouseFor(clientX, clientY, width, height) && lastMouse == old(lastMouse)
      ensures draggingCalls == old(draggingCalls) + (if callbackIsFunction then [true] else [])
      ensures targetY == old(targetY)
      ensures targetX == old(targetX) && velocity == old(velocity) && tiltX == old(tiltX)
      ensures autoRotationSpeedScalar == old(autoRotationSpeedScalar)
      ensures autoRotationSpeedScalarTarget == old(autoRotationSpeedScalarTarget)
      ensures listeners == old(listeners)
    {
      SetMouse(clientX, clientY, width, height);
      SetDragging(true);
    }

    /** `handleMouseMove` and `handleTouchMove`. */
    method HandleMove(clientX: real, clientY: real, width: real, height: real)
      requires width > 0.0 && height > 0.0
      modifies this`mouse
      ensures mouse == MouseFor(clientX, clientY, width, height)
      ensures dragging == old(dragging) && draggingCalls == old(draggingCalls)
      ensures targetY == old(targetY)
      ensures targetX == old(targetX) && velocity == old(velocity) && tiltX == old(tiltX)
      ensures autoRotationSpeedScalar == old(autoRotationSpeedScalar)
      ensures autoRotationSpeedScalarTarget == old(autoRotationSpeedScalarTarget)
      ensures listeners == old(listeners)
      ensures lastMouse == old(lastMouse)
    {
      SetMouse(clientX, clientY, width, height);
    }

    /** `handleMouseUp` and `handleTouchEnd` (also bound to `touchcancel`). */
    method HandleRelease(clientX: real, clientY: real, width: real, height: real)
      requires width > 0.0 && height > 0.0
      modifies this`mouse, this`dragging, this`draggingCalls
      ensures !dragging
      ensures mouse == MouseFor(clientX, clientY, width, height)
      ensures draggingCalls == old(draggingCalls) + (if callbackIsFunction then [false] else [])
      ensures targetY == old(targetY)
      ensures targetX == old(targetX) && velocity == old(velocity) && tiltX == old(tiltX)
      ensures autoRotationSpeedScalar == old(autoRotationSpeedScalar)
      ensures autoRotationSpeedScalarTarget == old(autoRotationSpeedScalarTarget)
      ensures listeners == old(listeners)
      ensures lastMouse == old(lastMouse)
    {
      SetMouse(clientX, clientY, width, height);
      SetDragging(false);
    }

    /** `handleMouseOut`, bound to `mouseout` and `mouseleave`. */
    method HandleMouseOut()
      modifies this`dragging, this`draggingCalls
      ensures !dragging && mouse == old(mouse)
      ensures draggingCalls == old(draggingCalls) + (if callbackIsFunction then [false] else [])
      ensures targetY == old(targetY)
      ensures targetX == old(targetX) && velocity == old(velocity) && tiltX == old(tiltX)
      ensures autoRotationSpeedScalar == old(autoRotationSpeedScalar)
      ensures autoRotationSpeedScalarTarget == old(autoRotationSpeedScalarTarget)
      ensures listeners == old(listeners)
      ensures lastMouse == old(lastMouse)
    {
      SetDragging(false);
    }

    /** `handleTouchStart`: a touch also resets `lastMouse`, so the first
        frame of a touch drag does not jump. */
    method HandleTouchStart(clientX: real, clientY: real, width: real, height: real)
      requires width > 0.0 && height > 0.0
      modifies this`mouse, this`lastMouse, this`dragging, this`draggingCalls
      ensures dragging
      ensures mouse == MouseFor(clientX, clientY, width, height) && lastMouse == mouse
      ensures draggingCalls == old(draggingCalls) + (if callbackIsFunction then [true] else [])
      ensures targetY == old(targetY)
      ensures targetX == old(targetX) && velocity == old(velocity) && tiltX == old(tiltX)
      ensures autoRotationSpeedScalar == old(autoRotationSpeedScalar)
      ensures autoRotationSpeedScalarTarget == old(autoRotationSpeedScalarTarget)
      ensures listeners == old(listeners)
    {
      SetMouse(clientX, clientY, width, height);
      lastMouse := mouse;
      SetDragging(true);
    }

    /** `removeListeners`, also run by `handlePause`. */
    method RemoveListeners()
      modifies this`listeners
      ensures listeners == RemoveAll(old(listeners), BINDINGS)
      ensures dragging == old(dragging) && targetY == old(targetY)
    {
      listeners := RemoveAll(listeners, BINDINGS);
    }

    /** `addListeners`, also run by `handleResume`. */
    method AddListeners()
      modifies this`listeners
      ensures listeners == Registered(old(listeners))
      ensures dragging == old(dragging) && targetY == old(targetY)
    {
      RemoveListeners();
      listeners := AddAll(listeners, BINDINGS);
    }

    /** `update(delta)`: while dragging the pointer's movement since the
        last frame tilts the target (clamped) and spins it; the container
        eases toward the tilt, the spin eases toward the movement, the auto
        rotation runs only when not dragging, its scalar eases 5% toward its
        target, and the pointer and velocity are recorded. Returns the
        angles passed to `rotateAroundWorldAxisY`, in order. */
    method Update(delta: real) returns (rotations: seq<real>)
      requires TiltBounded()
      modifies this
      ensures TiltBounded()
      ensures velocity == if old(dragging) then Vec2(old(mouse).x - old(lastMouse).x, old(mouse).y - old(lastMouse).y)
                          else Vec2(0.0, 0.0)
      ensures targetY == if old(dragging) then Utils.Clamp(old(targetY) - velocity.y, -maxRotationX, maxRotationX * 0.6)
                         else old(targetY)
      ensures targetX == Eased(old(targetX), velocity.x, easing)
      ensures tiltX == Eased(old(tiltX), targetY + ROTATION_OFFSET_X, easing)
      ensures rotations == [targetX * rotateSpeed] +
                (if old(dragging) then [] else [delta * autoRotationSpeed * old(autoRotationSpeedScalar)])
      ensures autoRotationSpeedScalar == Eased(old(autoRotationSpeedScalar), autoRotationSpeedScalarTarget, SCALAR_EASING)
      ensures autoRotationSpeedScalarTarget == old(autoRotationSpeedScalarTarget)
      ensures lastMouse == mouse && mouse == old(mouse)
      ensures dragging == old(dragging) && draggingCalls == old(draggingCalls) && listeners == old(listeners)
      ensures pauseResumeSubscribed == old(pauseResumeSubscribed)
    {
      var scalar := autoRotationSpeedScalar;
      var deltaX, deltaY := 0.0, 0.0;
      if dragging {
        deltaX := mouse.x - lastMouse.x;
        deltaY := mouse.y - lastMouse.y;
        targetY := Utils.Clamp(targetY - deltaY, -maxRotationX, maxRotationX * 0.6);
      }
      tiltX := Eased(tiltX, targetY + ROTATION_OFFSET_X, easing);
      targetX := Eased(targetX, deltaX, easing);
      // The angles handed to `rotateAroundWorldAxisY`; the auto rotation
      // uses the scalar from before this frame's easing.
      var spin := targetX * rotateSpeed;
      var auto := delta * autoRotationSpeed * scalar;
      autoRotationSpeedScalar := Eased(scalar, autoRotationSpeedScalarTarget, SCALAR_EASING);
      lastMouse := mouse;
      velocity := Vec2(deltaX, deltaY);
      rotations := [spin] + (if dragging then [] else [auto]);
      assert spin == targetX * rotateSpeed;
      assert auto == delta * autoRotationSpeed * old(autoRotationSpeedScalar);
    }

    /** `dispose`: removes the nine listeners and unsubscribes from the
        pause and resume events. Nulling the remaining state is not
        modelled. */
    method Dispose()
      modifies this`listeners, this`pauseResumeSubscribed
      ensures listeners == RemoveAll(old(listeners), BINDINGS) && !pauseResumeSubscribed
    {
      RemoveListeners();
      pauseResumeSubscribed := false;
    }
  }
}
