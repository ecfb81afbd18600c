/** Camera controls (src/main.rs): the game resource that holds the orbit
    camera, the mouse system that updates it from button, motion and wheel
    events, and the keyboard intent that `wasd` builds.  The camera is kept in
    spherical coordinates: x is the radius, y the polar angle, z the azimuth. */
module Controls {
  import opened Common

  /** Mouse motion is divided by this before it turns the camera. */
  const Sens: real := 500.0

  /** Bounds of the radius the wheel zooms within. */
  const MinRadius: real := 1.0
  const MaxRadius: real := 20.0

  datatype MouseButton = Left | Right | Middle | Other(code: nat)

  datatype ElementState = Pressed | Released

  datatype MouseButtonInput = MouseButtonInput(button: MouseButton, state: ElementState)

  /** A mouse motion event with its delta (x, y). */
  datatype MouseMotion = MouseMotion(dx: real, dy: real)

  /** A mouse wheel event with its scroll amounts (x, y). */
  datatype MouseWheel = MouseWheel(x: real, y: real)

  /** Float `clamp`: `min` if below it, `max` if above it, otherwise unchanged.
      The source asserts min <= max. */
  function Clamp(v: real, min: real, max: real): (r: real)
    requires min <= max
    ensures min <= r <= max
    ensures min <= v <= max ==> r == v
    ensures v < min ==> r == min
    ensures v > max ==> r == max
  {
    var x := if v < min then min else v;
    if x > max then max else x
  }

  /** The integer part of `v`, rounding toward zero. */
  function Trunc(v: real): int
  {
    if v >= 0.0 then v.Floor else -((-v).Floor)
  }

  /** Float `rem_euclid`: the truncating remainder, moved up by `m` when it is
      negative.  The result lies in [0, m) and differs from `v` by a whole
      multiple of `m`. */
  function RemEuclid(v: real, m: real): (r: real)
    requires m > 0.0
    ensures 0.0 <= r < m
    ensures ((v - r) / m).Floor as real == (v - r) / m
  {
    var q := Trunc(v / m);
    var rem := v - q as real * m;
    RemEuclidSteps(v, m, q);
    if rem < 0.0 then rem + m else rem
  }

  lemma RemEuclidSteps(v: real, m: real, q: int)
    requires m > 0.0 && q == Trunc(v / m)
    ensures v - q as real * m < 0.0 ==>
      0.0 <= v - q as real * m + m < m && (v - (v - q as real * m + m)) / m == (q - 1) as real
    ensures v - q as real * m >= 0.0 ==>
      v - q as real * m < m && (v - (v - q as real * m)) / m == q as real
  {
    RemBounds(v, m, q);
    assert v - (v - q as real * m + m) == (q - 1) as real * m;
    DivideMultiple(q - 1, m);
    assert v - (v - q as real * m) == q as real * m;
    DivideMultiple(q, m);
  }

  lemma DivideMultiple(n: int, m: real)
    requires m > 0.0
    ensures (n as real * m) / m == n as real
  {
  }

  lemma RemBounds(v: real, m: real, q: int)
    requires m > 0.0 && q == Trunc(v / m)
    ensures -m < v - q as real * m < m
  {
    var t := v / m;
    var d := t - q as real;
    assert -1.0 < d < 1.0;
    assert v == t * m;
    assert v - q as real * m == d * m;
    ProductBelow(1.0 - d, m);
    ProductBelow(1.0 + d, m);
  }

  lemma ProductBelow(a: real, m: real)
    requires a > 0.0 && m > 0.0
    ensures a * m > 0.0
  {
  }

  // ---------------------------------------------------------------------------
  // The effect of a batch of events, one event at a time

  /** A button event sets the right-button flag on a right press, clears it on
      a right release, and leaves it alone for every other button. */
  function ApplyButton(held: bool, e: MouseButtonInput): (after: bool)
    ensures e.button == Right ==> (after <==> e.state == Pressed)
    ensures e.button != Right ==> after == held
  {
    if e.button == Right then
      match e.state
      case Pressed => true
      case Released => false
    else held
  }

  function ButtonAfter(held: bool, events: seq<MouseButtonInput>): bool
  {
    if |events| == 0 then held
    else ApplyButton(ButtonAfter(held, events[..|events| - 1]), events[|events| - 1])
  }

  /** One motion event while the right button is held: the polar angle moves by
      -dy/Sens and is kept inside [eps, pi - eps]; the azimuth moves by dx/Sens
      and is wrapped into [0, 2 pi). */
  function Orbit(camera: Vec3, e: MouseMotion): (c: Vec3)
    ensures c.x == camera.x
    ensures F32Epsilon <= c.y <= F32Pi - F32Epsilon
    ensures F32Epsilon <= camera.y - e.dy / Sens <= F32Pi - F32Epsilon ==> c.y == camera.y - e.dy / Sens
    ensures 0.0 <= c.z < F32Pi * 2.0
    ensures var turns := (camera.z + e.dx / Sens - c.z) / (F32Pi * 2.0); turns.Floor as real == turns
  {
    Vec3(camera.x,
         Clamp(camera.y - e.dy / Sens, F32Epsilon, F32Pi - F32Epsilon),
         RemEuclid(camera.z + e.dx / Sens, F32Pi * 2.0))
  }

  function MotionAfter(camera: Vec3, held: bool, events: seq<MouseMotion>): Vec3
  {
    if |events| == 0 then camera
    else
      var c := MotionAfter(camera, held, events[..|events| - 1]);
      if held then Orbit(c, events[|events| - 1]) else c
  }

  /** One wheel event: the radius moves by -y and is kept inside [1, 20]. */
  function Zoom(camera: Vec3, e: MouseWheel): (c: Vec3)
    ensures c.y == camera.y && c.z == camera.z
    ensures MinRadius <= c.x <= MaxRadius
    ensures MinRadius <= camera.x - e.y <= MaxRadius ==> c.x == camera.x - e.y
  {
    camera.(x := Clamp(camera.x - e.y, MinRadius, MaxRadius))
  }

  function WheelAfter(camera: Vec3, events: seq<MouseWheel>): Vec3
  {
    if |events| == 0 then camera
    else Zoom(WheelAfter(camera, events[..|events| - 1]), events[|events| - 1])
  }

  /** The ranges the controls keep the camera in. */
  predicate CameraInRange(camera: Vec3)
  {
    MinRadius <= camera.x <= MaxRadius &&
    F32Epsilon <= camera.y <= F32Pi - F32Epsilon &&
    0.0 <= camera.z < F32Pi * 2.0
  }

  // ---------------------------------------------------------------------------
  // The game resource

  /** The `MyGame` resource: whether the right button is held, the spherical
      camera, the keyboard offset and a saved camera. */
  class MyGame {
    var button: bool
    var camera: Vec3
    var pos: Vec3
    var origCamera: Option<Vec3>

    /** The derived default: false, zero vectors, no saved camera. */
    constructor ()
      ensures button == false && camera == Zero && pos == Zero && origCamera == None
    {
      button := false;
      camera := Zero;
      pos := Zero;
      origCamera := None;
    }

    /** The part of `setup` that initialises the resource. */
    method Setup()
      modifies this
      ensures button == false && camera == Vec3(6.00, 0.94, 3.51)
      ensures pos == Zero && origCamera == None
      ensures CameraInRange(camera)
    {
      button := false;
      camera := Vec3(6.00, 0.94, 3.51);
      pos := Vec3(0.0, 0.0, 0.0);
      origCamera := None;
    }

    /** `print_mouse_events_system`: first every button event, then every
        motion event (which turns the camera only while the right button is
        held), then every wheel event. */
    method MouseEventsSystem(buttons: seq<MouseButtonInput>, motions: seq<MouseMotion>,
                             wheels: seq<MouseWheel>)
      modifies this
      ensures button == ButtonAfter(old(button), buttons)
      ensures camera == WheelAfter(MotionAfter(old(camera), button, motions), wheels)
      ensures pos == old(pos) && origCamera == old(origCamera)
    {
      for n := 0 to |buttons|
        invariant button == ButtonAfter(old(button), buttons[..n])
        invariant camera == old(camera) && pos == old(pos) && origCamera == old(origCamera)
      {
        var event := buttons[n];
        if event.button == Right {
          button := match event.state
            case Pressed => true
            case Released => false;
        }
        assert buttons[..n + 1][..n] == buttons[..n];
      }
      assert buttons[..|buttons|] == buttons;

      for n := 0 to |motions|
        invariant button == ButtonAfter(old(button), buttons)
        invariant camera == MotionAfter(old(camera), button, motions[..n])
        invariant pos == old(pos) && origCamera == old(origCamera)
      {
        var event := motions[n];
        if button {
          camera := camera.(y := Clamp(camera.y - event.dy / Sens, F32Epsilon, F32Pi - F32Epsilon));
          camera := camera.(z := RemEuclid(camera.z + event.dx / Sens, F32Pi * 2.0));
        }
        assert motions[..n + 1][..n] == motions[..n];
      }
      assert motions[..|motions|] == motions;

      ghost var afterMotion := camera;
      for n := 0 to |wheels|
        invariant button == ButtonAfter(old(button), buttons)
        invariant camera == WheelAfter(afterMotion, wheels[..n])
        invariant pos == old(pos) && origCamera == old(origCamera)
      {
        var event := wheels[n];
        camera := camera.(x := Clamp(camera.x - event.y, MinRadius, MaxRadius));
        assert wheels[..n + 1][..n] == wheels[..n];
      }
      assert wheels[..|wheels|] == wheels;
    }
  }

  // ---------------------------------------------------------------------------
  // What the mouse system promises

  /** Events from buttons other than the right one leave the flag unchanged. */
  lemma {:induction false} OtherButtonsIgnored(held: bool, events: seq<MouseButtonInput>)
    requires forall i :: 0 <= i < |events| ==> events[i].button != Right
    ensures ButtonAfter(held, events) == held
  {
    if |events| > 0 {
      OtherButtonsIgnored(held, events[..|events| - 1]);
    }
  }

  /** The last right-button event decides the flag: held after a press,
      released after a release. */
  lemma {:induction false} LastRightEventWins(held: bool, before: seq<MouseButtonInput>,
                                               e: MouseButtonInput, after: seq<MouseButtonInput>)
    requires e.button == Right
    requires forall i :: 0 <= i < |after| ==> after[i].button != Right
    ensures ButtonAfter(held, before + [e] + after) == (e.state == Pressed)
  {
    if |after| == 0 {
      assert before + [e] + after == before + [e];
      assert (before + [e])[..|before|] == before;
    } else {
      var events := before + [e] + after;
      assert events[..|events| - 1] == before + [e] + after[..|after| - 1];
      LastRightEventWins(held, before, e, after[..|after| - 1]);
    }
  }

  /** Motion leaves the camera alone while the right button is not held. */
  lemma {:induction false} MotionIgnoredWhenReleased(camera: Vec3, events: seq<MouseMotion>)
    ensures MotionAfter(camera, false, events) == camera
  {
    if |events| > 0 {
      MotionIgnoredWhenReleased(camera, events[..|events| - 1]);
    }
  }

  /** Motion never changes the radius; after at least one motion event with
      the button held, the polar angle is in [eps, pi - eps] and the azimuth in
      [0, 2 pi). */
  lemma {:induction false} MotionKeepsAnglesInRange(camera: Vec3, held: bool, events: seq<MouseMotion>)
    ensures MotionAfter(camera, held, events).x == camera.x
    ensures held && |events| > 0 ==>
      var c := MotionAfter(camera, held, events);
      F32Epsilon <= c.y <= F32Pi - F32Epsilon && 0.0 <= c.z < F32Pi * 2.0
  {
    if |events| > 0 {
      MotionKeepsAnglesInRange(camera, held, events[..|events| - 1]);
    }
  }

  /** Wheel events change only the radius; after at least one of them the
      radius is in [1, 20]. */
  lemma {:induction false} WheelClampsRadius(camera: Vec3, events: seq<MouseWheel>)
    ensures WheelAfter(camera, events).y == camera.y && WheelAfter(camera, events).z == camera.z
    ensures |events| > 0 ==> MinRadius <= WheelAfter(camera, events).x <= MaxRadius
  {
    if |events| > 0 {
      WheelClampsRadius(camera, events[..|events| - 1]);
    }
  }

  /** A camera inside its ranges stays inside them through any batch of
      events. */
  lemma {:induction false} MotionPreservesRange(camera: Vec3, held: bool, events: seq<MouseMotion>)
    requires CameraInRange(camera)
    ensures CameraInRange(MotionAfter(camera, held, events))
  {
    MotionKeepsAnglesInRange(camera, held, events);
    if |events| > 0 && !held {
      MotionIgnoredWhenReleased(camera, events);
    }
  }

  lemma {:induction false} MouseSystemPreservesRange(camera: Vec3, held: bool,
                                                      motions: seq<MouseMotion>, wheels: seq<MouseWheel>)
    requires CameraInRange(camera)
    ensures CameraInRange(WheelAfter(MotionAfter(camera, held, motions), wheels))
  {
    MotionPreservesRange(camera, held, motions);
    var c := MotionAfter(camera, held, motions);
    WheelClampsRadius(c, wheels);
  }

  // ---------------------------------------------------------------------------
  // wasd

  /** The movement intent `wasd` builds from the held keys before turning it
      into camera space: W/S drive x, Space/LControl drive y, A/D drive z. */
  method Intent(pressed: set<KeyCode>) returns (intent: Vec3)
    ensures intent.x == 1.0 <==> W in pressed && S !in pressed
    ensures intent.x == -1.0 <==> S in pressed && W !in pressed
    ensures intent.x == 0.0 <==> (W in pressed <==> S in pressed)
    ensures intent.y == 1.0 <==> Space in pressed && LControl !in pressed
    ensures intent.y == -1.0 <==> LControl in pressed && Space !in pressed
    ensures intent.y == 0.0 <==> (Space in pressed <==> LControl in pressed)
    ensures intent.z == 1.0 <==> A in pressed && D !in pressed
    ensures intent.z == -1.0 <==> D in pressed && A !in pressed
    ensures intent.z == 0.0 <==> (A in pressed <==> D in pressed)
  {
    intent := Vec3(0.0, 0.0, 0.0);
    if W in pressed {
      intent := intent.(x := intent.x + 1.0);
    }
    if A in pressed {
      intent := intent.(z := intent.z + 1.0);
    }
    if S in pressed {
      intent := intent.(x := intent.x - 1.0);
    }
    if D in pressed {
      intent := intent.(z := intent.z - 1.0);
    }
    if Space in pressed {
      intent := intent.(y := intent.y + 1.0);
    }
    if LControl in pressed {
      intent := intent.(y := intent.y - 1.0);
    }
  }
}
