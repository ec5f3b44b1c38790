/** The animated particle field behind the page (components/ThreeBackground.tsx).
    Two flat coordinate buffers of `count * 3` reals are filled once with points of a
    Fibonacci sphere; every frame the displayed buffer is rewritten in place from the
    base buffer by a per-point radial scale, the pointer offset and the camera follow
    their goals by exponential smoothing, and the rotation is recomputed from the clock.
    Coordinates are mathematical reals; the host's trigonometric functions are left
    uninterpreted, as fields of a `Trig` record. The rendering library, the clock and
    the frame scheduler are outside the model: elapsed time and pointer positions are
    inputs, and each frame request is only counted. */
module ThreeBackground {
  import opened Types

  /** The host's `Math.sin`, `Math.cos`, `Math.acos` and `Math.sqrt`. */
  datatype Trig = Trig(sin: real -> real, cos: real -> real, acos: real -> real, sqrt: real -> real)

  /** The only fact about sine and cosine that the wave bounds rely on. */
  ghost predicate SinCosBounded(m: Trig) {
    forall x :: -1.0 <= m.sin(x) <= 1.0 && -1.0 <= m.cos(x) <= 1.0
  }

  /** The Pythagorean identity, the only fact the sphere radius relies on. */
  ghost predicate Pythagorean(m: Trig) {
    forall x :: m.sin(x) * m.sin(x) + m.cos(x) * m.cos(x) == 1.0
  }

  const ParticleCount: nat := 3000
  const Radius: real := 1.6
  const Pi: real := 3.141592653589793
  const CameraDepth: real := 3.5
  const PointerGain: real := 0.001
  const PointerSmoothing: real := 0.05
  const CameraSmoothing: real := 0.02
  const CameraSway: real := 2.0
  const Spin: real := 0.1
  const WaveRate: real := 1.5
  const WaveAmplitude: real := 0.15
  const MaxPixelRatio: real := 2.0

  // ---------------------------------------------------------------------------
  // Sphere sampling

  /** The argument of `acos` for point `i`: `-1 + 2i/count`, in [-1, 1). */
  function AcosArg(count: nat, i: nat): (a: real)
    requires i < count
    ensures -1.0 <= a < 1.0
    ensures a == -1.0 <==> i == 0
  {
    -1.0 + (2 * i) as real / count as real
  }

  /** The latitude arguments grow strictly with the point index. */
  lemma AcosArgIncreasing(count: nat, i: nat, j: nat)
    requires i < j < count
    ensures AcosArg(count, i) < AcosArg(count, j)
  {
    var c := count as real;
    assert (2 * i) as real / c < (2 * j) as real / c by {
      assert (2 * i) as real < (2 * j) as real;
    }
  }

  /** The polar angle `phi` of sample point `i`. */
  function Phi(m: Trig, count: nat, i: nat): real
    requires i < count
  {
    m.acos(AcosArg(count, i))
  }

  /** The azimuth `theta = sqrt(count * pi) * phi` of sample point `i`. */
  function Theta(m: Trig, count: nat, i: nat): real
    requires i < count
  {
    m.sqrt(count as real * Pi) * Phi(m, count, i)
  }

  /** Coordinate `k` (0 = x, 1 = y, 2 = z) of sample point `i`. */
  function Coordinate(m: Trig, count: nat, i: nat, k: nat): real
    requires i < count && k < 3
  {
    var phi := Phi(m, count, i);
    var theta := Theta(m, count, i);
    if k == 0 then Radius * m.cos(theta) * m.sin(phi)
    else if k == 1 then Radius * m.sin(theta) * m.sin(phi)
    else Radius * m.cos(phi)
  }

  /** The base buffer: coordinate `k` of point `i` at offset `3i + k`. */
  function SphereBuffer(m: Trig, count: nat): (b: seq<real>)
    ensures |b| == count * 3
  {
    seq(count * 3, j requires 0 <= j < count * 3 => Coordinate(m, count, j / 3, j % 3))
  }

  /** With sine and cosine in [-1, 1] no coordinate leaves [-1.6, 1.6]. */
  lemma CoordinateInRange(m: Trig, count: nat, i: nat, k: nat)
    requires SinCosBounded(m) && i < count && k < 3
    ensures -Radius <= Coordinate(m, count, i, k) <= Radius
  {
    var phi, theta := Phi(m, count, i), Theta(m, count, i);
    var u, w := m.cos(theta) * m.sin(phi), m.sin(theta) * m.sin(phi);
    ProductInUnit(m.cos(theta), m.sin(phi));
    ProductInUnit(m.sin(theta), m.sin(phi));
    if k == 0 {
      assert Coordinate(m, count, i, k) == Radius * m.cos(theta) * m.sin(phi) == Radius * u;
    } else if k == 1 {
      assert Coordinate(m, count, i, k) == Radius * m.sin(theta) * m.sin(phi) == Radius * w;
    } else {
      assert Coordinate(m, count, i, k) == Radius * m.cos(phi);
    }
  }

  /** A buffer that holds coordinate `k` of point `i` at offset `3i + k`, for every point,
      is the base buffer. */
  lemma SphereBufferByPoints(m: Trig, count: nat, b: seq<real>)
    requires |b| == count * 3
    requires forall i, k :: 0 <= i < count && 0 <= k < 3 ==> b[3 * i + k] == Coordinate(m, count, i, k)
    ensures b == SphereBuffer(m, count)
  {
    forall j | 0 <= j < |b| ensures b[j] == SphereBuffer(m, count)[j] {
      var i, k := j / 3, j % 3;
      assert j == 3 * i + k;
    }
  }

  /** The sampling loop of the effect: both buffers receive the sphere's coordinates. */
  method SampleSphere(m: Trig, pos: array<real>, orig: array<real>)
    requires pos.Length == ParticleCount * 3 && orig.Length == ParticleCount * 3 && pos != orig
    modifies pos, orig
    ensures pos[..] == SphereBuffer(m, ParticleCount)
    ensures orig[..] == SphereBuffer(m, ParticleCount)
  {
    var n := ParticleCount;
    var i := 0;
    while i < n
      invariant 0 <= i <= n
      invariant forall p, k :: 0 <= p < i && 0 <= k < 3 ==>
                  pos[3 * p + k] == Coordinate(m, n, p, k) && orig[3 * p + k] == Coordinate(m, n, p, k)
    {
      var x := Coordinate(m, n, i, 0);
      var y := Coordinate(m, n, i, 1);
      var z := Coordinate(m, n, i, 2);
      pos[i * 3] := x;
      pos[i * 3 + 1] := y;
      pos[i * 3 + 2] := z;
      orig[i * 3] := x;
      orig[i * 3 + 1] := y;
      orig[i * 3 + 2] := z;
      i := i + 1;
    }
    SphereBufferByPoints(m, n, pos[..]);
    SphereBufferByPoints(m, n, orig[..]);
  }

  /** With the Pythagorean identity every sample lies on the sphere of radius 1.6. */
  lemma OnSphere(m: Trig, count: nat, i: nat)
    requires Pythagorean(m) && i < count
    ensures var x, y, z := Coordinate(m, count, i, 0), Coordinate(m, count, i, 1), Coordinate(m, count, i, 2);
            x * x + y * y + z * z == Radius * Radius
  {
    var phi, theta := Phi(m, count, i), Theta(m, count, i);
    var st, ct, sp, cp := m.sin(theta), m.cos(theta), m.sin(phi), m.cos(phi);
    assert st * st + ct * ct == 1.0;
    assert sp * sp + cp * cp == 1.0;
    calc {
      (Radius * ct * sp) * (Radius * ct * sp) + (Radius * st * sp) * (Radius * st * sp) + (Radius * cp) * (Radius * cp);
      Radius * Radius * ((ct * ct + st * st) * (sp * sp) + cp * cp);
      Radius * Radius * (sp * sp + cp * cp);
      Radius * Radius;
    }
  }

  // ---------------------------------------------------------------------------
  // Wave distortion

  /** `sin(ox*2 + t*1.5) * cos(oy*2 + t*1.5) * 0.15`. */
  function Distortion(m: Trig, ox: real, oy: real, time: real): real {
    m.sin(ox * 2.0 + time * WaveRate) * m.cos(oy * 2.0 + time * WaveRate) * WaveAmplitude
  }

  /** The radial scale of point `i` of `base` at `time`. */
  function PointScale(m: Trig, base: seq<real>, i: nat, time: real): real
    requires 3 * i + 2 < |base|
  {
    1.0 + Distortion(m, base[3 * i], base[3 * i + 1], time)
  }

  /** Coordinate `k` of point `i` in a frame: the base coordinate times the scale of point `i`. */
  function WaveCoordinate(m: Trig, base: seq<real>, time: real, i: nat, k: nat): real
    requires 3 * i + 2 < |base| && k < 3
  {
    base[3 * i + k] * PointScale(m, base, i, time)
  }

  /** The displayed buffer of a frame. */
  function WaveFrame(m: Trig, base: seq<real>, time: real): (f: seq<real>)
    requires |base| % 3 == 0
    ensures |f| == |base|
  {
    seq(|base|, j requires 0 <= j < |base| => WaveCoordinate(m, base, time, j / 3, j % 3))
  }

  /** All three coordinates of point `i` are scaled by the one scale of point `i`. */
  lemma WaveFrameAt(m: Trig, base: seq<real>, time: real, i: nat, k: nat)
    requires |base| % 3 == 0 && 3 * i + 2 < |base| && k < 3
    ensures WaveFrame(m, base, time)[3 * i + k] == base[3 * i + k] * PointScale(m, base, i, time)
  {
    var j := 3 * i + k;
    assert j / 3 == i && j % 3 == k;
  }

  /** A buffer that holds every point's frame coordinates at its offsets is the frame. */
  lemma WaveFrameByPoints(m: Trig, base: seq<real>, time: real, b: seq<real>)
    requires |base| % 3 == 0 && |b| == |base|
    requires forall i, k :: 0 <= i && 0 <= k < 3 && 3 * i + 2 < |base| ==> b[3 * i + k] == WaveCoordinate(m, base, time, i, k)
    ensures b == WaveFrame(m, base, time)
  {
    forall j | 0 <= j < |b| ensures b[j] == WaveFrame(m, base, time)[j] {
      var i, k := j / 3, j % 3;
      assert j == 3 * i + k;
    }
  }

  lemma ProductInUnit(a: real, b: real)
    requires -1.0 <= a <= 1.0 && -1.0 <= b <= 1.0
    ensures -1.0 <= a * b <= 1.0
  {
    if a >= 0.0 {
      if b >= 0.0 { assert a * b <= 1.0 * b; } else { assert a * b >= a * -1.0; }
    } else {
      if b >= 0.0 { assert a * b >= -1.0 * b; } else { assert a * b <= -1.0 * b; }
    }
  }

  /** Given |sin|, |cos| <= 1, every scale lies in [0.85, 1.15]. */
  lemma ScaleInRange(m: Trig, ox: real, oy: real, time: real)
    requires SinCosBounded(m)
    ensures 0.85 <= 1.0 + Distortion(m, ox, oy, time) <= 1.15
  {
    var s, c := m.sin(ox * 2.0 + time * WaveRate), m.cos(oy * 2.0 + time * WaveRate);
    ProductInUnit(s, c);
  }

  lemma Unscale(w: real, x: real, p: real)
    requires p > 0.0 && w == x * p
    ensures w / p == x
  {
  }

  /** Dividing a written coordinate by its point's scale recovers the base coordinate. */
  lemma WaveRoundTrip(m: Trig, base: seq<real>, time: real, i: nat, k: nat)
    requires SinCosBounded(m) && |base| % 3 == 0 && 3 * i + 2 < |base| && k < 3
    ensures PointScale(m, base, i, time) > 0.0
    ensures WaveFrame(m, base, time)[3 * i + k] / PointScale(m, base, i, time) == base[3 * i + k]
  {
    ScaleInRange(m, base[3 * i], base[3 * i + 1], time);
    WaveFrameAt(m, base, time, i, k);
    Unscale(WaveFrame(m, base, time)[3 * i + k], base[3 * i + k], PointScale(m, base, i, time));
  }

  // ---------------------------------------------------------------------------
  // Pointer, smoothing, camera and surface

  /** `(client - extent / 2) * 0.001`. */
  function PointerOffset(client: real, extent: real): (o: real)
    ensures client == extent / 2.0 <==> o == 0.0
    ensures o / PointerGain + extent / 2.0 == client
  {
    (client - extent / 2.0) * PointerGain
  }

  /** One smoothing step `v += (goal - v) * k`; for `0 <= k <= 1` it lands between the
      value and the goal. */
  function Smooth(v: real, goal: real, k: real): (r: real)
    ensures 0.0 <= k <= 1.0 && v <= goal ==> v <= r <= goal
    ensures 0.0 <= k <= 1.0 && goal <= v ==> goal <= r <= v
  {
    assert 0.0 <= k <= 1.0 ==> Between(v, v + (goal - v) * k, goal) by {
      if 0.0 <= k <= 1.0 {
        FractionOfGap(k, goal - v, (goal - v) * k);
      }
    }
    v + (goal - v) * k
  }

  /** `x` lies between `a` and `b`, in either order. */
  predicate Between(a: real, x: real, b: real) {
    (a <= b ==> a <= x <= b) && (b <= a ==> b <= x <= a)
  }

  /** A fraction of a gap lies between 0 and the gap. */
  lemma FractionOfGap(p: real, g: real, d: real)
    requires 0.0 <= p <= 1.0 && d == g * p
    ensures g >= 0.0 ==> 0.0 <= d <= g
    ensures g <= 0.0 ==> g <= d <= 0.0
  {
    if g >= 0.0 {
      assert 0.0 <= g * p <= g * 1.0;
    } else {
      assert -g * p <= -g * 1.0;
      assert g * p <= 0.0;
    }
  }

  /** `n` smoothing steps towards a fixed goal; for `0 <= k <= 1` every step stays between
      the start and the goal. */
  function Follow(v: real, goal: real, k: real, n: nat): (r: real)
    ensures 0.0 <= k <= 1.0 ==> Between(v, r, goal)
    decreases n
  {
    if n == 0 then v else Follow(Smooth(v, goal, k), goal, k, n - 1)
  }

  /** `b` to the power `n`. */
  function Pow(b: real, n: nat): real {
    if n == 0 then 1.0 else b * Pow(b, n - 1)
  }

  /** A power of a base in (0, 1] stays in (0, 1], and below the base after one step. */
  lemma {:induction false} PowInUnit(b: real, n: nat)
    requires 0.0 < b <= 1.0
    ensures 0.0 < Pow(b, n) <= 1.0
    ensures n > 0 ==> Pow(b, n) <= b
  {
    if n > 0 {
      PowInUnit(b, n - 1);
      ProductShrinks(b, Pow(b, n - 1));
    }
  }

  lemma ProductShrinks(a: real, b: real)
    requires 0.0 < a <= 1.0 && 0.0 < b <= 1.0
    ensures 0.0 < a * b <= a && a * b <= b
  {
  }

  /** A step multiplies the remaining gap by `1 - k`. */
  lemma SmoothGap(v: real, goal: real, k: real)
    ensures goal - Smooth(v, goal, k) == (1.0 - k) * (goal - v)
  {
  }

  /** After `n` steps the gap is `(1 - k)^n` times the first one. */
  lemma {:induction false} FollowGap(v: real, goal: real, k: real, n: nat)
    ensures goal - Follow(v, goal, k, n) == Pow(1.0 - k, n) * (goal - v)
    decreases n
  {
    if n > 0 {
      var a, g, s := 1.0 - k, goal - v, Smooth(v, goal, k);
      var q := Pow(a, n - 1);
      FollowGap(s, goal, k, n - 1);
      SmoothGap(v, goal, k);
      Regroup(q, a, g, goal - s);
      assert Follow(v, goal, k, n) == Follow(s, goal, k, n - 1);
      assert Pow(a, n) == a * q;
    }
  }

  lemma Regroup(q: real, a: real, g: real, h: real)
    requires h == a * g
    ensures q * h == (a * q) * g
  {
  }

  function Abs(x: real): real {
    if x < 0.0 then -x else x
  }

  /** For 0 < k < 1 and a fixed goal, the smoothed value never crosses the goal and
      its distance to the goal never grows. */
  lemma NoOvershoot(v: real, goal: real, k: real, n: nat)
    requires 0.0 < k < 1.0
    ensures (goal - Follow(v, goal, k, n)) * (goal - v) >= 0.0
    ensures Abs(goal - Follow(v, goal, k, n)) <= Abs(goal - v)
  {
    FollowGap(v, goal, k, n);
    PowInUnit(1.0 - k, n);
    ScaledGap(Pow(1.0 - k, n), goal - v, goal - Follow(v, goal, k, n));
  }

  /** Scaling a gap by a factor in (0, 1] keeps its sign and does not lengthen it. */
  lemma ScaledGap(p: real, g: real, d: real)
    requires 0.0 < p <= 1.0 && d == p * g
    ensures d * g >= 0.0
    ensures Abs(d) <= Abs(g)
  {
    if g >= 0.0 {
      assert 0.0 <= p * g <= 1.0 * g;
    } else {
      assert 1.0 * g <= p * g <= 0.0;
    }
  }

  /** With the pointer held fixed, each frame shrinks the target's gap to 95% of what it was,
      keeping its sign. */
  lemma PointerGapShrinks(target: real, mouse: real)
    ensures mouse - Smooth(target, mouse, PointerSmoothing) == 0.95 * (mouse - target)
  {
    SmoothGap(target, mouse, PointerSmoothing);
  }

  /** `Math.min(devicePixelRatio, 2)`. */
  function PixelRatio(devicePixelRatio: real): (r: real)
    ensures r <= MaxPixelRatio
    ensures r == devicePixelRatio || r == MaxPixelRatio
    ensures devicePixelRatio <= MaxPixelRatio ==> r == devicePixelRatio
  {
    if devicePixelRatio < MaxPixelRatio then devicePixelRatio else MaxPixelRatio
  }

  /** A JavaScript number produced by dividing two non-negative integers. */
  datatype Quotient = Finite(value: real) | Infinity | NaN

  /** `innerWidth / innerHeight`, which the code computes with no guard against zero. */
  function Divide(width: nat, height: nat): (q: Quotient)
    ensures q.Finite? <==> height > 0
    ensures q.Finite? ==> q.value * height as real == width as real
    ensures q == NaN <==> width == 0 && height == 0
  {
    if height > 0 then Finite(width as real / height as real)
    else if width > 0 then Infinity
    else NaN
  }

  // ---------------------------------------------------------------------------
  // The mounted field

  class ParticleField {
    const trig: Trig
    const count: nat
    /** The buffer the geometry draws from (`posArray`). */
    const positions: array<real>
    const originalPositions: array<real>
    const pixelRatio: real

    var mouseX: real
    var mouseY: real
    var targetX: real
    var targetY: real
    var rotationX: real
    var rotationY: real
    var cameraX: real
    var cameraY: real
    var cameraZ: real
    var aspect: Quotient
    var surfaceWidth: nat
    var surfaceHeight: nat
    /** The `mousemove` and `resize` listeners are registered. */
    var listening: bool
    /** The canvas is a child of the mount element. */
    var attached: bool
    /** How many times geometry, material and renderer have been disposed. */
    var disposeCalls: nat
    /** How many frames have been requested from the host. */
    var framesRequested: nat

    ghost predicate Valid()
      reads this, originalPositions
    {
      && count == ParticleCount
      && positions.Length == count * 3
      && originalPositions.Length == count * 3
      && positions != originalPositions
    }

    /** The effect up to the first `animate()` call: camera, renderer, both buffers,
        listeners and clock. */
    constructor (m: Trig, innerWidth: nat, innerHeight: nat, devicePixelRatio: real)
      ensures Valid()
      ensures fresh(positions) && fresh(originalPositions)
      ensures trig == m
      ensures positions[..] == originalPositions[..] == SphereBuffer(m, ParticleCount)
      ensures mouseX == 0.0 && mouseY == 0.0 && targetX == 0.0 && targetY == 0.0
      ensures rotationX == 0.0 && rotationY == 0.0
      ensures cameraX == 0.0 && cameraY == 0.0 && cameraZ == CameraDepth
      ensures aspect == Divide(innerWidth, innerHeight)
      ensures surfaceWidth == innerWidth && surfaceHeight == innerHeight
      ensures pixelRatio == PixelRatio(devicePixelRatio)
      ensures listening && attached && disposeCalls == 0 && framesRequested == 0
    {
      trig := m;
      aspect := Divide(innerWidth, innerHeight);
      cameraX, cameraY, cameraZ := 0.0, 0.0, CameraDepth;
      surfaceWidth, surfaceHeight := innerWidth, innerHeight;
      pixelRatio := PixelRatio(devicePixelRatio);
      attached := true;

      var n := ParticleCount;
      var pos := new real[n * 3];
      var orig := new real[n * 3];
      SampleSphere(m, pos, orig);
      count := n;
      positions := pos;
      originalPositions := orig;

      mouseX, mouseY, targetX, targetY := 0.0, 0.0, 0.0, 0.0;
      rotationX, rotationY := 0.0, 0.0;
      listening := true;
      disposeCalls, framesRequested := 0, 0;
    }

    /** The `mousemove` handler. */
    method HandleMouseMove(clientX: real, clientY: real, innerWidth: real, innerHeight: real)
      modifies this`mouseX, this`mouseY
      ensures mouseX == PointerOffset(clientX, innerWidth)
      ensures mouseY == PointerOffset(clientY, innerHeight)
    {
      mouseX := (clientX - innerWidth / 2.0) * PointerGain;
      mouseY := (clientY - innerHeight / 2.0) * PointerGain;
    }

    /** The loop of `animate()` over the points: every displayed coordinate becomes its base
        coordinate times the scale of its point. */
    method WriteFrame(time: real)
      requires Valid()
      modifies positions
      ensures positions[..] == WaveFrame(trig, originalPositions[..], time)
      ensures originalPositions[..] == old(originalPositions[..])
    {
      ghost var base := originalPositions[..];
      var i := 0;
      while i < count
        modifies positions
        invariant 0 <= i <= count
        invariant forall p, k :: 0 <= p < i && 0 <= k < 3 ==>
                    positions[3 * p + k] == WaveCoordinate(trig, base, time, p, k)
      {
        var ix := i * 3;
        var ox := originalPositions[ix];
        var oy := originalPositions[ix + 1];
        var oz := originalPositions[ix + 2];
        var distortion := Distortion(trig, ox, oy, time);
        var scale := 1.0 + distortion;
        positions[ix] := ox * scale;
        positions[ix + 1] := oy * scale;
        positions[ix + 2] := oz * scale;
        i := i + 1;
      }
      WaveFrameByPoints(trig, base, time, positions[..]);
    }

    /** One frame at elapsed time `time`. Right after reading the clock it requests the next
        frame, whatever state the component is in. */
    method Animate(time: real)
      requires Valid()
      modifies this, positions
      ensures Valid()
      ensures framesRequested == old(framesRequested) + 1
      ensures targetX == Smooth(old(targetX), mouseX, PointerSmoothing)
      ensures targetY == Smooth(old(targetY), mouseY, PointerSmoothing)
      ensures rotationY == time * Spin + targetX && rotationX == targetY
      ensures positions[..] == WaveFrame(trig, originalPositions[..], time)
      ensures originalPositions[..] == old(originalPositions[..])
      ensures cameraX == Smooth(old(cameraX), targetX * CameraSway, CameraSmoothing)
      ensures cameraY == Smooth(old(cameraY), -targetY * CameraSway, CameraSmoothing)
      ensures cameraZ == old(cameraZ)
      ensures mouseX == old(mouseX) && mouseY == old(mouseY)
      ensures aspect == old(aspect) && surfaceWidth == old(surfaceWidth) && surfaceHeight == old(surfaceHeight)
      ensures listening == old(listening) && attached == old(attached) && disposeCalls == old(disposeCalls)
    {
      framesRequested := framesRequested + 1;

      targetX := targetX + (mouseX - targetX) * PointerSmoothing;
      targetY := targetY + (mouseY - targetY) * PointerSmoothing;

      rotationY := time * Spin + targetX;
      rotationX := targetY;

      WriteFrame(time);

      cameraX := cameraX + (targetX * CameraSway - cameraX) * CameraSmoothing;
      cameraY := cameraY + (-targetY * CameraSway - cameraY) * CameraSmoothing;
    }

    /** The `resize` handler: no guard against a zero dimension. */
    method HandleResize(mountPresent: bool, innerWidth: nat, innerHeight: nat)
      modifies this`aspect, this`surfaceWidth, this`surfaceHeight
      ensures mountPresent ==> aspect == Divide(innerWidth, innerHeight) &&
                               surfaceWidth == innerWidth && surfaceHeight == innerHeight
      ensures !mountPresent ==> aspect == old(aspect) && surfaceWidth == old(surfaceWidth) &&
                                surfaceHeight == old(surfaceHeight)
    {
      if !mountPresent {
        return;
      }
      aspect := Divide(innerWidth, innerHeight);
      surfaceWidth, surfaceHeight := innerWidth, innerHeight;
    }

    /** The effect's cleanup. It removes the listeners, detaches the canvas when the mount
        element is still there, and disposes. Removing a canvas that is no longer a child
        throws, which skips the disposals. Frames keep being requested: nothing cancels them. */
    method Cleanup(mountPresent: bool) returns (threw: bool)
      modifies this`listening, this`attached, this`disposeCalls
      ensures !listening
      ensures threw <==> mountPresent && !old(attached)
      ensures attached == (old(attached) && !mountPresent)
      ensures disposeCalls == if threw then old(disposeCalls) else old(disposeCalls) + 1
    {
      listening := false;
      threw := false;
      if mountPresent {
        if !attached {
          threw := true;
          return;
        }
        attached := false;
      }
      disposeCalls := disposeCalls + 1;
    }
  }

  /** The whole effect: nothing happens without a mount element; otherwise the field is built
      and the first frame is drawn at once. */
  method Mount(mountPresent: bool, m: Trig, innerWidth: nat, innerHeight: nat, devicePixelRatio: real,
               startTime: real) returns (field: Option<ParticleField>)
    ensures field.Some? <==> mountPresent
    ensures field.Some? ==> fresh(field.value) && field.value.Valid() && field.value.trig == m
    ensures field.Some? ==> fresh(field.value.positions) && fresh(field.value.originalPositions)
    ensures field.Some? ==> field.value.originalPositions[..] == SphereBuffer(m, ParticleCount)
    ensures field.Some? ==> field.value.positions[..] == WaveFrame(m, SphereBuffer(m, ParticleCount), startTime)
    ensures field.Some? ==> field.value.mouseX == 0.0 && field.value.mouseY == 0.0 &&
                            field.value.targetX == 0.0 && field.value.targetY == 0.0
    ensures field.Some? ==> field.value.rotationY == startTime * Spin && field.value.rotationX == 0.0
    ensures field.Some? ==> field.value.cameraX == 0.0 && field.value.cameraY == 0.0 &&
                            field.value.cameraZ == CameraDepth
    ensures field.Some? ==> field.value.aspect == Divide(innerWidth, innerHeight) &&
                            field.value.surfaceWidth == innerWidth && field.value.surfaceHeight == innerHeight &&
                            field.value.pixelRatio == PixelRatio(devicePixelRatio)
    ensures field.Some? ==> field.value.framesRequested == 1 && field.value.listening &&
                            field.value.attached && field.value.disposeCalls == 0
  {
    if !mountPresent {
      return None;
    }
    var f := new ParticleField(m, innerWidth, innerHeight, devicePixelRatio);
    f.Animate(startTime);
    field := Some(f);
  }

  /** Cleaning up does not stop the frame chain: a frame already requested still runs,
      rewrites the buffer and requests another. */
  method FrameAfterCleanup(field: ParticleField, mountPresent: bool, time: real)
    requires field.Valid()
    modifies field, field.positions
    ensures !field.listening && field.Valid()
    ensures field.framesRequested == old(field.framesRequested) + 1
    ensures field.positions[..] == WaveFrame(field.trig, field.originalPositions[..], time)
  {
    var _ := field.Cleanup(mountPresent);
    field.Animate(time);
  }

  /** Nothing guards against a second cleanup: with the mount element gone, each run disposes
      again; with it present, the second run tries to remove a canvas that is no longer its
      child and throws. */
  method CleanupTwice(field: ParticleField, mountPresent: bool) returns (threw: bool)
    requires field.attached
    modifies field
    ensures !field.listening && (field.attached <==> !mountPresent)
    ensures threw <==> mountPresent
    ensures field.disposeCalls == old(field.disposeCalls) + (if mountPresent then 1 else 2)
  {
    threw := field.Cleanup(mountPresent);
    assert !threw;
    threw := field.Cleanup(mountPresent);
  }
}
