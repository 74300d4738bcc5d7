# lense camera, modelled in Dafny

A model of the `Camera` of the Go package `lense` (`camera.go`): a 2D camera
for a game's rendering layer. It tracks a focal point `(x, y)`, the viewport
size and half size fixed at construction, a uniform `scale`, a rotation `rot`
and a transient `shakeIntensity`. `Shake` raises the intensity up to
`maxShake = 5`. `Update(dt)` decays it linearly at `atenuationSpeed = 4` units
per second, floored at zero, and while it is still positive jitters the focal
point by a random amount on each axis. `Draw` wraps the caller's drawing in a
push and a pop of the renderer's transform stack, after translating, scaling,
rotating and re-centring.

Files:

- `camera.dfy`, module `Lense`: the scalar helpers, the camera's value
  `CameraState` with its invariant `Inv` (`0 <= shakeIntensity <= 5`, half
  sizes are half the viewport), the pure step functions `Shaken` and
  `Updated`, the multi-tick function `Ticks` and its lemmas, and the class
  `Camera`, whose methods change the fields in place and are specified against
  `State()`.
- `render_trace.dfy`, module `RenderTrace`: the renderer calls as an abstract
  trace of `Op`s (Push, Pop, Translate, Scale, Rotate and the callback
  invocation `Call`), the stack depth of a trace, and when a trace is balanced.

Modelling choices:

- Every `float32` is a `real`.
- The display size that `New` queries is passed to the constructor as `w, h`.
- Each `rand.Float32()` draw is a parameter `u` with `0 <= u < 1` (`IsDraw`).
  `Update` takes two, `u1` for x and `u2` for y.
- The callback of `Draw` is a function from the visible rectangle to the
  renderer calls it makes. `Draw` returns the whole trace.
- Negative `dt` and negative `intensity` are modelled as the code computes
  them. The invariant is promised only for `dt >= 0` and `intensity >= 0`.
  `NegativeDtBreaksCap` and `NegativeShakeBreaksFloor` show why.
- A run of frames is a sequence of `Step(dt, u1, u2)`, one per `Update`
  call, each with its own `dt`.
- `Shake(5)` followed by 0.1-second updates leaves intensity 1 after ten
  updates and reaches 0 at the thirteenth (1.3 s), as `FullShakeScenario` proves.
  From any valid intensity, frames adding up to 1.25 s are enough
  (`SettlesWithin`). From the full intensity 5, less time is not enough
  (`NotSettledBefore`).
- `camera.go` has no deferred `gfx.Pop`, so balance is stated only for a
  callback that returns.

## Model

| member | source | states |
|---|---|---|
| `Lense.Min` | camera.go:119-121 | the result is at most both arguments and equal to one of them |
| `Lense.Max` | camera.go:123-125 | the result is at least both arguments and equal to one of them |
| `Lense.RandRange` | camera.go:115-117 | for a draw in [0, 1) the result lies in [min, max) when min < max, equals min when they are equal, and lies in (max, min] when they are reversed |
| `Lense.RandMax` | camera.go:111-113 | for a draw in [0, 1) the result lies in [0, m) for m > 0 and is 0 for m = 0 |
| `Lense.Decay` | camera.go:104 | decayed intensity is never negative; it is positive exactly when the old intensity exceeds 4·dt, and is then old − 4·dt; with dt >= 0 it never exceeds a non-negative old intensity |
| `Lense.Jitter` | camera.go:106-107 | for positive intensity s and dt > 0 one axis moves by more than (100 − 200·s)·dt and at most 100·dt; with dt = 0 it does not move |
| `Lense.DecayAdditive` | camera.go:104 | decaying by a and then by b >= 0 equals decaying once by a + b |
| `Lense.Shaken` | camera.go:97-99 | intensity becomes old + i when that is at most 5 and 5 otherwise, so never above 5; nothing else changes; with i >= 0 the invariant is kept and the intensity does not drop |
| `Lense.Updated` | camera.go:103-109 | intensity becomes the decayed value; position is unchanged when it is 0 and otherwise each axis moves by its own jitter computed from the decayed intensity; only x, y and the intensity change; with dt >= 0 the invariant is kept and the intensity does not rise |
| `Lense.UpdateStepBounds` | camera.go:105-108 | with dt > 0 and decayed intensity s > 0 each axis moves by more than (100 − 200·s)·dt and at most 100·dt |
| `Lense.Ticks` | camera.go:103-109 | a series of `Update` calls, each with its own dt and draws, changes only x, y and the intensity; when no dt is negative it keeps the invariant without raising the intensity |
| `Lense.RepeatedDecayIsLinear` | camera.go:104 | successive decays over frames of any non-negative lengths equal one decay by their total length |
| `Lense.TicksIntensity` | camera.go:103-108 | over any series of updates the intensity depends on the frames' dt alone, never on the draws |
| `Lense.TicksDecay` | camera.go:103-104 | updates with non-negative dt leave the intensity max(0, s − 4·total elapsed time), however the time is split into frames |
| `Lense.TicksAtRest` | camera.go:105-108 | at zero intensity any series of updates with non-negative dt leaves the whole camera unchanged |
| `Lense.SettlesWithin` | camera.go:10-13 | from any valid camera, updates with non-negative dt adding up to at least 5 / 4 = 1.25 s bring the intensity to 0 |
| `Lense.NotSettledBefore` | camera.go:10-13 | 1.25 s is the least time that always suffices: from intensity 5, updates with non-negative dt adding up to less leave the intensity positive |
| `Lense.FullShakeScenario` | camera.go:97-109 | after Shake(5) the intensity is 5; ten updates of 0.1 s leave 1, thirteen leave 0, and later updates with non-negative dt change nothing |
| `Lense.ShakeDrifts` | camera.go:105-108 | jitter is not undone: from intensity 0.5, two 0.1 s frames with zero draws move the camera 10 units on both axes, and it stays there whatever later frames with non-negative dt do |
| `Lense.NegativeDtBreaksCap` | camera.go:104 | an update with dt = −1 raises a full intensity of 5 to 9, past the cap |
| `Lense.NegativeShakeBreaksFloor` | camera.go:98 | a negative shake takes a zero intensity below zero |
| `Lense.Camera.New` | camera.go:27-37 | position, rotation and intensity are 0, scale is 1, the size is (w, h), the half size (w·0.5, h·0.5), and the invariant holds |
| `Lense.Camera.LookAt` | camera.go:40-42 | sets x and y and changes nothing else |
| `Lense.Camera.Move` | camera.go:45-47 | adds dx to x and dy to y and changes nothing else |
| `Lense.Camera.Rotate` | camera.go:51-53 | adds phi to the rotation and changes nothing else |
| `Lense.Camera.RotateTo` | camera.go:56-58 | sets the rotation to phi and changes nothing else |
| `Lense.Camera.Zoom` | camera.go:62-64 | multiplies the scale by mul and changes nothing else |
| `Lense.Camera.ZoomTo` | camera.go:67-69 | sets the scale to zoom and changes nothing else |
| `Lense.Camera.GetVisible` | camera.go:73-75 | the rectangle has the viewport's width and height and, while the half sizes are half the viewport (which no method changes), is centred on the focal point; it reads the camera and changes nothing |
| `Lense.Camera.Draw` | camera.go:80-92 | emits Push, Translate(−x, −y), Scale(scale), Rotate(rot), Translate(halfWidth, halfHeight), the callback with the visible rectangle, the callback's calls, then Pop; the net depth is the callback's; with a balanced callback the trace is balanced and the camera's entry stays pushed until the final Pop; the camera is not modified |
| `Lense.Camera.Shake` | camera.go:97-99 | the new state is `Shaken` of the old; with intensity >= 0 the invariant is kept |
| `Lense.Camera.Update` | camera.go:103-109 | the new state is `Updated` of the old, with the two draws; with dt >= 0 the invariant is kept |
| `Lense.FreshVisible` | camera.go:73-75 | a new 800 by 600 camera sees the rectangle (−400, −300, 800, 600) |
| `Lense.ZoomRoundTrip` | camera.go:62-69 | on any camera, ZoomTo(z) sets the scale to z whatever it was; Zoom(m) then Zoom(1/m) restores it; nothing else changes |
| `Lense.RotateFromZero` | camera.go:51-58 | on any camera, RotateTo(0) then Rotate(phi) leaves the rotation at phi; nothing else changes |
| `Lense.UpdateAtRest` | camera.go:103-109 | an update at zero intensity with dt >= 0 leaves the position and the whole state unchanged |
| `RenderTrace.DepthConcat` | camera.go:81-91 | the stack depth of two traces one after the other is the sum of their depths |
| `RenderTrace.Scoped` | camera.go:81-91 | a Push, stack-neutral set-up calls, a body and a Pop change the depth as the body does; with a balanced body the whole is balanced and every proper non-empty prefix is at depth at least 1 |

## Left out

- float32 rounding and the NaN and infinity cases of `math.Min` and `math.Max` (camera.go:119-125): every value is a `real`, so `Zoom(m)` then `Zoom(1/m)` restores the scale exactly.
- `gfx.GetWidth` and `gfx.GetHeight` (camera.go:28) are display queries of the graphics library; the model takes the size as constructor parameters.
- What `gfx.Push`, `Translate`, `Scale`, `Rotate` and `Pop` do to the transform matrix (camera.go:81-91) belongs to the graphics library; the model records only the sequence of calls.
- `rand.Float32` (camera.go:116) is the library's random generator; each draw is a parameter in [0, 1). The generator's internal state is not modelled, so the fact that no draw is consumed at zero intensity is not visible.
- Lense.Camera.Draw: balance is stated only for a callback that returns; camera.go has no deferred `gfx.Pop`, so a panicking callback leaves the camera's transform on the stack, and panics are not modelled.
- Lense.Camera.Draw: the callback is modelled as a pure function from the visible rectangle to the renderer calls it makes. Its other effects are not modelled, such as a Go closure that moves or zooms the camera while drawing.
- Concurrency: the camera has none and the model has none.
