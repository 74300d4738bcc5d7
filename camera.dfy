/**
 A 2D camera for a game's rendering layer: a focal point, a viewport size
 fixed at construction, a uniform zoom, a rotation and a transient shake.
 Float32 arithmetic is modelled by `real`; the random draws and the display
 size are parameters.
 */
module Lense {
  import opened RenderTrace

  /** Largest shake intensity `Shake` lets accumulate. */
  const MaxShake: real := 5.0
  /** Linear decay of the shake intensity, in units per second. */
  const AttenuationSpeed: real := 4.0

  // ---------------------------------------------------------------------------
  // Scalar helpers

  function Min(x: real, y: real): (r: real)
    ensures r <= x && r <= y
    ensures r == x || r == y
  {
    if x <= y then x else y
  }

  function Max(x: real, y: real): (r: real)
    ensures r >= x && r >= y
    ensures r == x || r == y
  {
    if x >= y then x else y
  }

  /** A uniform draw `u` in [0, 1) is a valid stand-in for the random generator. */
  predicate IsDraw(u: real)
  {
    0.0 <= u < 1.0
  }

  /** A value in [lo, hi) obtained from the draw `u`. */
  function RandRange(lo: real, hi: real, u: real): (r: real)
    requires IsDraw(u)
    ensures lo < hi ==> lo <= r < hi
    ensures lo == hi ==> r == lo
    ensures hi < lo ==> hi < r <= lo
  {
    DrawScales(u, lo, hi);
    u * (hi - lo) + lo
  }

  /** A draw scales the interval from `lo` to `hi` onto its half-open part that starts at `lo`. */
  lemma DrawScales(u: real, lo: real, hi: real)
    requires IsDraw(u)
    ensures lo < hi ==> lo <= u * (hi - lo) + lo < hi
    ensures lo == hi ==> u * (hi - lo) + lo == lo
    ensures hi < lo ==> hi < u * (hi - lo) + lo <= lo
  {
    var d := hi - lo;
    var p := u * (hi - lo);
    assert d - p == (1.0 - u) * d;
    if d > 0.0 {
      assert (1.0 - u) * d > 0.0;
      assert u * d >= 0.0;
    } else if d < 0.0 {
      assert (1.0 - u) * d < 0.0;
      assert u * d <= 0.0;
    }
  }

  /** A value in [0, m) obtained from the draw `u`. */
  function RandMax(m: real, u: real): (r: real)
    requires IsDraw(u)
    ensures m > 0.0 ==> 0.0 <= r < m
    ensures m == 0.0 ==> r == 0.0
  {
    RandRange(0.0, m, u)
  }

  // ---------------------------------------------------------------------------
  // Shake arithmetic

  /** The shake intensity after `dt` seconds of linear decay, floored at zero. */
  function Decay(s: real, dt: real): (r: real)
    ensures r >= 0.0
    ensures r > 0.0 <==> s > AttenuationSpeed * dt
    ensures r > 0.0 ==> r == s - AttenuationSpeed * dt
    ensures 0.0 <= s && 0.0 <= dt ==> r <= s
  {
    Max(0.0, s - AttenuationSpeed * dt)
  }

  /** The displacement of one axis in one tick, for intensity `s` and draw `u`. */
  function Jitter(s: real, dt: real, u: real): (d: real)
    requires IsDraw(u)
    ensures s > 0.0 && dt > 0.0 ==> (100.0 - 200.0 * s) * dt < d <= 100.0 * dt
    ensures dt == 0.0 ==> d == 0.0
  {
    var r := RandMax(s, u);
    assert s > 0.0 && dt > 0.0 ==> r * dt < s * dt && 0.0 <= r * dt;
    (100.0 - 200.0 * r) * dt
  }

  /** Decaying for `a` seconds and then for `b` seconds is decaying for `a + b` seconds. */
  lemma DecayAdditive(s: real, a: real, b: real)
    requires b >= 0.0
    ensures Decay(Decay(s, a), b) == Decay(s, a + b)
  {
  }

  // ---------------------------------------------------------------------------
  // The camera's value

  datatype CameraState = CameraState(
    x: real, y: real,
    width: real, height: real,
    halfWidth: real, halfHeight: real,
    scale: real,
    rot: real,
    shakeIntensity: real)

  /**
   The camera invariant: the shake intensity stays within [0, MaxShake], and
   the half sizes are half the viewport size captured at construction.
   */
  predicate Inv(c: CameraState)
  {
    && 0.0 <= c.shakeIntensity <= MaxShake
    && c.halfWidth == c.width * 0.5
    && c.halfHeight == c.height * 0.5
  }

  /** The camera after `Shake(intensity)`. */
  function Shaken(c: CameraState, intensity: real): (c': CameraState)
    ensures c'.shakeIntensity <= MaxShake
    ensures c.shakeIntensity + intensity <= MaxShake ==> c'.shakeIntensity == c.shakeIntensity + intensity
    ensures c.shakeIntensity + intensity >= MaxShake ==> c'.shakeIntensity == MaxShake
    ensures c' == c.(shakeIntensity := c'.shakeIntensity)
    ensures Inv(c) && intensity >= 0.0 ==> Inv(c') && c'.shakeIntensity >= c.shakeIntensity
  {
    c.(shakeIntensity := Min(MaxShake, c.shakeIntensity + intensity))
  }

  /**
   The camera after `Update(dt)` with the draws `u1` (for x) and `u2` (for y):
   first the intensity decays, then, only while the decayed intensity is still
   positive, each axis is displaced by its own jitter.
   */
  function Updated(c: CameraState, dt: real, u1: real, u2: real): (c': CameraState)
    requires IsDraw(u1) && IsDraw(u2)
    ensures c'.shakeIntensity == Decay(c.shakeIntensity, dt)
    ensures c'.shakeIntensity == 0.0 ==> c'.x == c.x && c'.y == c.y
    ensures c'.shakeIntensity > 0.0 ==>
      c'.x == c.x + Jitter(c'.shakeIntensity, dt, u1) && c'.y == c.y + Jitter(c'.shakeIntensity, dt, u2)
    ensures c' == c.(x := c'.x, y := c'.y, shakeIntensity := c'.shakeIntensity)
    ensures Inv(c) && dt >= 0.0 ==> Inv(c') && c'.shakeIntensity <= c.shakeIntensity
  {
    var s := Decay(c.shakeIntensity, dt);
    if s > 0.0 then
      c.(x := c.x + Jitter(s, dt, u1), y := c.y + Jitter(s, dt, u2), shakeIntensity := s)
    else
      c.(shakeIntensity := s)
  }

  /**
   One tick moves each axis by at most `100 * dt`, and by strictly more than
   `(100 - 200 * s) * dt`, where `s` is the decayed intensity.
   */
  lemma UpdateStepBounds(c: CameraState, dt: real, u1: real, u2: real)
    requires IsDraw(u1) && IsDraw(u2) && dt > 0.0
    ensures var c' := Updated(c, dt, u1, u2);
      c'.shakeIntensity > 0.0 ==>
        && (100.0 - 200.0 * c'.shakeIntensity) * dt < c'.x - c.x <= 100.0 * dt
        && (100.0 - 200.0 * c'.shakeIntensity) * dt < c'.y - c.y <= 100.0 * dt
  {
  }

  // ---------------------------------------------------------------------------
  // Several ticks

  /** The arguments of one frame's `Update`: the elapsed time and the two draws. */
  datatype Step = Step(dt: real, u1: real, u2: real)

  predicate AreSteps(steps: seq<Step>)
  {
    forall k | 0 <= k < |steps| :: IsDraw(steps[k].u1) && IsDraw(steps[k].u2)
  }

  /** No frame runs backwards in time. */
  predicate Forward(steps: seq<Step>)
  {
    forall k | 0 <= k < |steps| :: steps[k].dt >= 0.0
  }

  /** The camera after one `Update` per step, in order. */
  function Ticks(c: CameraState, steps: seq<Step>): (c': CameraState)
    requires AreSteps(steps)
    ensures c' == c.(x := c'.x, y := c'.y, shakeIntensity := c'.shakeIntensity)
    ensures Inv(c) && Forward(steps) ==> Inv(c') && c'.shakeIntensity <= c.shakeIntensity
    decreases |steps|
  {
    if steps == [] then c
    else
      assert IsDraw(steps[0].u1) && IsDraw(steps[0].u2);
      Ticks(Updated(c, steps[0].dt, steps[0].u1, steps[0].u2), steps[1..])
  }

  /** The total time elapsed over the steps. */
  function Elapsed(steps: seq<Step>): (t: real)
    ensures Forward(steps) ==> t >= 0.0
    decreases |steps|
  {
    if steps == [] then 0.0 else steps[0].dt + Elapsed(steps[1..])
  }

  /** `n` frames of the same `dt` last `n * dt`. */
  lemma {:induction false} ElapsedUniform(steps: seq<Step>, dt: real)
    requires forall k | 0 <= k < |steps| :: steps[k].dt == dt
    ensures Elapsed(steps) == |steps| as real * dt
    decreases |steps|
  {
    if steps != [] {
      ElapsedUniform(steps[1..], dt);
      assert |steps| as real * dt == dt + (|steps| - 1) as real * dt;
    }
  }

  /** The intensity after one decay per step. */
  function RepeatedDecay(s: real, steps: seq<Step>): real
    decreases |steps|
  {
    if steps == [] then s else RepeatedDecay(Decay(s, steps[0].dt), steps[1..])
  }

  /** Successive decays over frames of any lengths are one decay by the total elapsed time. */
  lemma {:induction false} RepeatedDecayIsLinear(s: real, steps: seq<Step>)
    requires Forward(steps) && s >= 0.0
    ensures RepeatedDecay(s, steps) == Decay(s, Elapsed(steps))
    decreases |steps|
  {
    if steps != [] {
      RepeatedDecayIsLinear(Decay(s, steps[0].dt), steps[1..]);
      DecayAdditive(s, steps[0].dt, Elapsed(steps[1..]));
    }
  }

  /** Over several frames the intensity follows the decay alone, whatever the draws. */
  lemma {:induction false} TicksIntensity(c: CameraState, steps: seq<Step>)
    requires AreSteps(steps)
    ensures Ticks(c, steps).shakeIntensity == RepeatedDecay(c.shakeIntensity, steps)
    decreases |steps|
  {
    if steps != [] {
      TicksIntensity(Updated(c, steps[0].dt, steps[0].u1, steps[0].u2), steps[1..]);
    }
  }

  /** Frames of any non-negative lengths decay the intensity exactly as one frame of their total length would. */
  lemma TicksDecay(c: CameraState, steps: seq<Step>)
    requires AreSteps(steps) && Forward(steps) && c.shakeIntensity >= 0.0
    ensures Ticks(c, steps).shakeIntensity == Decay(c.shakeIntensity, Elapsed(steps))
  {
    TicksIntensity(c, steps);
    RepeatedDecayIsLinear(c.shakeIntensity, steps);
  }

  /** At zero intensity, frames with `dt >= 0` change nothing: no jitter ever starts again. */
  lemma {:induction false} TicksAtRest(c: CameraState, steps: seq<Step>)
    requires AreSteps(steps) && Forward(steps) && c.shakeIntensity == 0.0
    ensures Ticks(c, steps) == c
    decreases |steps|
  {
    if steps != [] {
      assert Updated(c, steps[0].dt, steps[0].u1, steps[0].u2) == c;
      TicksAtRest(c, steps[1..]);
    }
  }

  /**
   From a valid camera, frames adding up to at least MaxShake / AttenuationSpeed
   (1.25 seconds) bring the shake to rest.
   */
  lemma SettlesWithin(c: CameraState, steps: seq<Step>)
    requires Inv(c) && AreSteps(steps) && Forward(steps)
    requires Elapsed(steps) >= MaxShake / AttenuationSpeed
    ensures Ticks(c, steps).shakeIntensity == 0.0
  {
    TicksDecay(c, steps);
    assert MaxShake / AttenuationSpeed == 1.25;
  }

  /**
   1.25 seconds is the least time that is always enough: from the full
   intensity MaxShake, frames adding up to less leave the shake running.
   */
  lemma NotSettledBefore(c: CameraState, steps: seq<Step>)
    requires c.shakeIntensity == MaxShake && AreSteps(steps) && Forward(steps)
    requires Elapsed(steps) < MaxShake / AttenuationSpeed
    ensures Ticks(c, steps).shakeIntensity > 0.0
  {
    TicksDecay(c, steps);
    assert MaxShake / AttenuationSpeed == 1.25;
  }

  /**
   `Shake(5)` on a valid camera saturates the intensity; ten frames of 0.1 s
   leave it at 1, and thirteen frames (1.3 s) bring it to exactly 0, after
   which any further frames leave the camera unchanged.
   */
  lemma FullShakeScenario(c: CameraState, ten: seq<Step>, thirteen: seq<Step>, more: seq<Step>)
    requires Inv(c) && AreSteps(ten) && AreSteps(thirteen) && AreSteps(more) && Forward(more)
    requires |ten| == 10 && forall k | 0 <= k < |ten| :: ten[k].dt == 0.1
    requires |thirteen| == 13 && forall k | 0 <= k < |thirteen| :: thirteen[k].dt == 0.1
    ensures Shaken(c, 5.0).shakeIntensity == MaxShake
    ensures Ticks(Shaken(c, 5.0), ten).shakeIntensity == 1.0
    ensures Ticks(Shaken(c, 5.0), thirteen).shakeIntensity == 0.0
    ensures Ticks(Ticks(Shaken(c, 5.0), thirteen), more) == Ticks(Shaken(c, 5.0), thirteen)
  {
    var s := Shaken(c, 5.0);
    ElapsedUniform(ten, 0.1);
    TicksDecay(s, ten);
    ElapsedUniform(thirteen, 0.1);
    TicksDecay(s, thirteen);
    TicksAtRest(Ticks(s, thirteen), more);
  }

  /**
   Jitter is never undone: a camera at intensity 0.5 given two frames of
   0.1 s whose draws are all 0 ends 10 units further right and further down,
   and stays there whatever the later frames are.
   */
  lemma ShakeDrifts(c: CameraState, rest: seq<Step>)
    requires c.shakeIntensity == 0.5 && AreSteps(rest) && Forward(rest)
    ensures AreSteps([Step(0.1, 0.0, 0.0), Step(0.1, 0.0, 0.0)] + rest)
    ensures var c' := Ticks(c, [Step(0.1, 0.0, 0.0), Step(0.1, 0.0, 0.0)] + rest);
      c'.x == c.x + 10.0 && c'.y == c.y + 10.0 && c'.shakeIntensity == 0.0
  {
    var steps := [Step(0.1, 0.0, 0.0), Step(0.1, 0.0, 0.0)] + rest;
    assert steps[1..] == [Step(0.1, 0.0, 0.0)] + rest;
    assert steps[1..][1..] == rest;
    var c1 := Updated(c, 0.1, 0.0, 0.0);
    assert c1.shakeIntensity == 0.1 && c1.x == c.x + 10.0 && c1.y == c.y + 10.0;
    var c2 := Updated(c1, 0.1, 0.0, 0.0);
    assert c2 == c1.(shakeIntensity := 0.0);
    TicksAtRest(c2, rest);
  }

  /** Without the `dt >= 0` precondition the cap is not kept: a negative step raises the intensity past MaxShake. */
  lemma NegativeDtBreaksCap(c: CameraState)
    requires c.shakeIntensity == MaxShake
    ensures Updated(c, -1.0, 0.0, 0.0).shakeIntensity == 9.0
  {
  }

  /** Without the `intensity >= 0` precondition the floor is not kept. */
  lemma NegativeShakeBreaksFloor(c: CameraState)
    requires c.shakeIntensity == 0.0
    ensures Shaken(c, -1.0).shakeIntensity == -1.0
  {
  }

  // ---------------------------------------------------------------------------
  // The camera object

  class Camera {
    var x: real
    var y: real
    var width: real
    var height: real
    var halfWidth: real
    var halfHeight: real
    var scale: real
    var rot: real
    var shakeIntensity: real

    function State(): CameraState
      reads this
    {
      CameraState(x, y, width, height, halfWidth, halfHeight, scale, rot, shakeIntensity)
    }

    predicate Valid()
      reads this
    {
      Inv(State())
    }

    /** A camera for a display of `w` by `h`, looking at the origin, unzoomed, unrotated, at rest. */
    constructor New(w: real, h: real)
      ensures State() == CameraState(0.0, 0.0, w, h, w * 0.5, h * 0.5, 1.0, 0.0, 0.0)
      ensures Valid()
    {
      x, y := 0.0, 0.0;
      width, height := w, h;
      halfWidth, halfHeight := w * 0.5, h * 0.5;
      scale := 1.0;
      rot := 0.0;
      shakeIntensity := 0.0;
    }

    method LookAt(x: real, y: real)
      modifies this
      ensures State() == old(State()).(x := x, y := y)
      ensures Valid() == old(Valid())
    {
      this.x, this.y := x, y;
    }

    method Move(dx: real, dy: real)
      modifies this
      ensures State() == old(State()).(x := old(x) + dx, y := old(y) + dy)
      ensures Valid() == old(Valid())
    {
      x, y := x + dx, y + dy;
    }

    method Rotate(phi: real)
      modifies this
      ensures State() == old(State()).(rot := old(rot) + phi)
      ensures Valid() == old(Valid())
    {
      rot := rot + phi;
    }

    method RotateTo(phi: real)
      modifies this
      ensures State() == old(State()).(rot := phi)
      ensures Valid() == old(Valid())
    {
      rot := phi;
    }

    method Zoom(mul: real)
      modifies this
      ensures State() == old(State()).(scale := old(scale) * mul)
      ensures Valid() == old(Valid())
    {
      scale := scale * mul;
    }

    method ZoomTo(zoom: real)
      modifies this
      ensures State() == old(State()).(scale := zoom)
      ensures Valid() == old(Valid())
    {
      scale := zoom;
    }

    /**
     The world-space rectangle of the viewport, ignoring rotation and zoom: it
     has the viewport's size and, while the half sizes are those set at
     construction, is centred on the focal point.
     */
    function GetVisible(): (r: Rect)
      reads this
      ensures r.width == width && r.height == height
      ensures halfWidth == width * 0.5 && halfHeight == height * 0.5 ==>
        r.left + r.width * 0.5 == x && r.top + r.height * 0.5 == y
    {
      Rect(x - halfWidth, y - halfHeight, width, height)
    }

    /**
     The renderer calls made by drawing through this camera, where `draw` gives
     the calls the caller's callback makes for the rectangle it is handed.
     */
    method Draw(draw: Rect -> seq<Op>) returns (ops: seq<Op>)
      ensures |ops| == |draw(GetVisible())| + 7
      ensures ops[..6] == [Push, Translate(-x, -y), Scale(scale), Op.Rotate(rot),
                           Translate(halfWidth, halfHeight), Call(GetVisible())]
      ensures ops[6..] == draw(GetVisible()) + [Pop]
      ensures Depth(ops) == Depth(draw(GetVisible()))
      ensures Balanced(draw(GetVisible())) ==> Balanced(ops)
      ensures Balanced(draw(GetVisible())) ==> forall k | 1 <= k < |ops| :: Depth(ops[..k]) >= 1
    {
      ops := [Push];
      ops := ops + [Translate(-x, -y)];
      ops := ops + [Scale(scale)];
      ops := ops + [Op.Rotate(rot)];
      ops := ops + [Translate(halfWidth, halfHeight)];
      var visible := GetVisible();
      ops := ops + [Call(visible)];
      var setup := ops[1..];
      ops := ops + draw(visible);
      ops := ops + [Pop];
      assert ops == [Push] + setup + draw(visible) + [Pop];
      Scoped(setup, draw(visible));
    }

    /** Adds `intensity` to the shake, capped at MaxShake. */
    method Shake(intensity: real)
      modifies this
      ensures State() == Shaken(old(State()), intensity)
      ensures old(Valid()) && intensity >= 0.0 ==> Valid()
    {
      shakeIntensity := Min(MaxShake, shakeIntensity + intensity);
    }

    /**
     Advances the shake by `dt` seconds; `u1` and `u2` are the two uniform
     draws used for the x and y jitter.
     */
    method Update(dt: real, u1: real, u2: real)
      requires IsDraw(u1) && IsDraw(u2)
      modifies this
      ensures State() == Updated(old(State()), dt, u1, u2)
      ensures old(Valid()) && dt >= 0.0 ==> Valid()
    {
      shakeIntensity := Max(0.0, shakeIntensity - AttenuationSpeed * dt);
      if shakeIntensity > 0.0 {
        x := x + (100.0 - 200.0 * RandMax(shakeIntensity, u1)) * dt;
        y := y + (100.0 - 200.0 * RandMax(shakeIntensity, u2)) * dt;
      }
    }
  }

  // ---------------------------------------------------------------------------
  // Scenarios a caller of the camera can rely on

  /** A fresh 800 by 600 camera sees the rectangle (-400, -300, 800, 600). */
  method FreshVisible() returns (r: Rect)
    ensures r == Rect(-400.0, -300.0, 800.0, 600.0)
  {
    var c := new Camera.New(800.0, 600.0);
    r := c.GetVisible();
  }

  /** `ZoomTo(z)` is exact whatever the scale was, and zooming by `m` then by `1 / m` restores it. */
  method ZoomRoundTrip(c: Camera, z: real, m: real) returns (before: real, after: real)
    requires m != 0.0
    modifies c
    ensures before == z && after == z
    ensures c.State() == old(c.State()).(scale := z)
  {
    c.ZoomTo(z);
    before := c.scale;
    c.Zoom(m);
    c.Zoom(1.0 / m);
    after := c.scale;
  }

  /** `RotateTo(0)` followed by `Rotate(phi)` leaves the rotation at `phi`, whatever it was. */
  method RotateFromZero(c: Camera, phi: real) returns (rot: real)
    modifies c
    ensures rot == phi
    ensures c.State() == old(c.State()).(rot := phi)
  {
    c.RotateTo(0.0);
    c.Rotate(phi);
    rot := c.rot;
  }

  /** Updating a camera at rest leaves its position where it was. */
  method UpdateAtRest(c: Camera, dt: real, u1: real, u2: real) returns (x: real, y: real)
    requires c.shakeIntensity == 0.0 && dt >= 0.0 && IsDraw(u1) && IsDraw(u2)
    modifies c
    ensures x == old(c.x) && y == old(c.y)
    ensures c.State() == old(c.State())
  {
    c.Update(dt, u1, u2);
    x, y := c.x, c.y;
  }
}
