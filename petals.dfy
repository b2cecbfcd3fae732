/** The pure petal logic of the falling-petal background
    (components/sakura-animation.tsx): the petal record, the viewport tier
    table, petal creation from random draws, the per-frame advance, the
    periodic spawn batch and the render-side choices.

    Every `Math.random()` draw is a parameter in [0, 1); `Math.sin` is the
    function parameter `wave`, about which nothing is assumed unless a lemma
    says so. */
module Petals {
  import opened Wrappers

  /** The window's inner size in CSS pixels. */
  datatype Viewport = Viewport(width: nat, height: nat)

  /** The size assumed when there is no window (server rendering). */
  const FallbackViewport := Viewport(1920, 1080)

  /** The number of petal images a petal can show. */
  const ImageCount := 5

  /** Fast-scroll speed threshold, in pixels per 100 ms. */
  const FastScrollSpeed := 30.0

  /** The most petals drawn while scrolling fast. */
  const FastScrollRenderCap := 40

  predicate IsMobile(vp: Viewport)
  {
    vp.width <= 768
  }

  /** The mount-time size: the window's, or the fallback without a window. */
  function MountViewport(window: Option<Viewport>): (vp: Viewport)
    ensures window.Some? ==> vp == window.value
    ensures window.None? ==> vp.width == 1920 && vp.height == 1080
  {
    match window
    case Some(w) => w
    case None => FallbackViewport
  }

  datatype Petal = Petal(
    id: nat,
    x: real,
    y: real,
    size: real,
    rotation: real,
    rotationSpeed: real,
    speed: real,
    opacity: real,
    zIndex: int,
    scale: real,
    imageIndex: int,
    horizontalDrift: real,
    acceleration: real,
    rotationDirection: int)

  // ------------------------------------------------------------ tier table

  /** How many petals to seed, and the most the field may hold. */
  datatype PetalCount = PetalCount(initial: nat, max: nat)

  function Area(vp: Viewport): nat
  {
    vp.width * vp.height
  }

  function OptimalPetalCount(vp: Viewport): (c: PetalCount)
    ensures c.initial < c.max
    ensures Area(vp) < 500000 <==> c == PetalCount(25, 60)
    ensures 500000 <= Area(vp) < 1000000 <==> c == PetalCount(35, 90)
    ensures 1000000 <= Area(vp) <==> c == PetalCount(45, 120)
  {
    if Area(vp) < 500000 then PetalCount(25, 60)
    else if Area(vp) < 1000000 then PetalCount(35, 90)
    else PetalCount(45, 120)
  }

  /** A larger viewport never gets fewer petals. */
  lemma OptimalPetalCountMonotone(a: Viewport, b: Viewport)
    requires Area(a) <= Area(b)
    ensures OptimalPetalCount(a).initial <= OptimalPetalCount(b).initial
    ensures OptimalPetalCount(a).max <= OptimalPetalCount(b).max
  {
  }

  // -------------------------------------------------------------- creation

  /** The fourteen `Math.random()` draws of `createPetal`, in the order it
      makes them. */
  datatype PetalDraws = PetalDraws(
    scale: real,
    sizeRatio: real,
    spin: real,
    direction: real,
    drift: real,
    acceleration: real,
    x: real,
    y: real,
    size: real,
    rotation: real,
    speed: real,
    opacity: real,
    zIndex: real,
    image: real)

  /** What `Math.random()` promises of a draw. */
  predicate InUnit(r: real)
  {
    0.0 <= r < 1.0
  }

  predicate ValidDraws(d: PetalDraws)
  {
    && InUnit(d.scale) && InUnit(d.sizeRatio) && InUnit(d.spin)
    && InUnit(d.direction) && InUnit(d.drift) && InUnit(d.acceleration)
    && InUnit(d.x) && InUnit(d.y) && InUnit(d.size) && InUnit(d.rotation)
    && InUnit(d.speed) && InUnit(d.opacity) && InUnit(d.zIndex) && InUnit(d.image)
  }

  lemma UnitTimes(r: real, w: real)
    requires InUnit(r) && w >= 0.0
    ensures 0.0 <= r * w <= w
    ensures w > 0.0 ==> r * w < w
  {
  }

  lemma FloorOfUnitTimes(r: real, n: nat)
    requires InUnit(r) && n > 0
    ensures 0 <= (r * n as real).Floor < n
  {
    UnitTimes(r, n as real);
  }

  /** `Math.random() * width`: a point across a span of the given width. */
  function Across(r: real, width: nat): (x: real)
    requires InUnit(r)
    ensures 0.0 <= x <= width as real
    ensures width > 0 ==> x < width as real
  {
    UnitTimes(r, width as real);
    r * width as real
  }

  /** `Math.floor(Math.random() * n)`. */
  function RandomIndex(r: real, n: nat): (k: int)
    requires InUnit(r) && n > 0
    ensures 0 <= k < n
  {
    FloorOfUnitTimes(r, n);
    (r * n as real).Floor
  }

  /** Size relative to the largest a petal can be; it scales the fall
      speed up and the spin down. */
  function SizeRatio(mobile: bool, r: real): (ratio: real)
    requires InUnit(r)
    ensures 0.0 < ratio <= 1.0
  {
    var baseSize := if mobile then 22.0 else 32.0;
    var sizeVariation := if mobile then 12.0 else 22.0;
    (baseSize + r * sizeVariation) / (baseSize + sizeVariation)
  }

  /** `Math.random() > 0.5 ? 1 : -1`. */
  function RotationDirection(r: real): (dir: int)
    ensures dir == 1 || dir == -1
  {
    if r > 0.5 then 1 else -1
  }

  /** Signed spin in degrees per frame; its sign is the rotation direction. */
  function Spin(spinDraw: real, dir: int, ratio: real): (s: real)
    requires InUnit(spinDraw) && (dir == 1 || dir == -1) && ratio > 0.0
    ensures s != 0.0 && (s > 0.0 <==> dir == 1)
  {
    var baseRotationSpeed := 0.8 + spinDraw * 1.8;
    var magnitude := baseRotationSpeed * (1.0 / ratio);
    assert magnitude > 0.0;
    assert baseRotationSpeed * dir as real * (1.0 / ratio) == dir as real * magnitude;
    baseRotationSpeed * dir as real * (1.0 / ratio)
  }

  /** Initial fall speed in pixels per frame. */
  function FallSpeed(mobile: bool, speedDraw: real, ratio: real): (v: real)
    requires InUnit(speedDraw) && ratio > 0.0
    ensures v > 0.0
  {
    var baseSpeed := if mobile then 0.5 else 0.6;
    var speedVariation := if mobile then 0.4 else 0.6;
    (baseSpeed + speedDraw * speedVariation) * ratio
  }

  /** The petal `createPetal` builds with the given id, for the given
      viewport, from the given draws. */
  function PetalFromDraws(id: nat, vp: Viewport, d: PetalDraws): (p: Petal)
    requires ValidDraws(d)
    ensures p.id == id
    ensures -550.0 < p.y <= -50.0
    ensures 0.0 <= p.x && (vp.width > 0 ==> p.x < vp.width as real)
    ensures p.rotationDirection == 1 || p.rotationDirection == -1
    ensures 0 <= p.zIndex <= 9
    ensures 0 <= p.imageIndex < ImageCount
    ensures 0.6 <= p.opacity < 1.0
    ensures 0.002 <= p.acceleration < 0.007
    ensures -0.25 <= p.horizontalDrift < 0.25
    ensures 0.0 <= p.rotation < 360.0
    ensures p.speed > 0.0
    ensures p.rotationSpeed != 0.0 && (p.rotationSpeed > 0.0 <==> p.rotationDirection == 1)
    ensures IsMobile(vp) ==> 0.5 <= p.scale < 0.8 && 22.0 <= p.size < 34.0
    ensures !IsMobile(vp) ==> 0.6 <= p.scale < 1.1 && 32.0 <= p.size < 54.0
  {
    var mobile := IsMobile(vp);
    var baseScale := if mobile then 0.5 else 0.6;
    var scaleVariation := if mobile then 0.3 else 0.5;
    var baseSize := if mobile then 22.0 else 32.0;
    var sizeVariation := if mobile then 12.0 else 22.0;
    var ratio := SizeRatio(mobile, d.sizeRatio);
    var dir := RotationDirection(d.direction);
    Petal(
      id := id,
      x := Across(d.x, vp.width),
      y := -50.0 - d.y * 500.0,
      size := baseSize + d.size * sizeVariation,
      rotation := d.rotation * 360.0,
      rotationSpeed := Spin(d.spin, dir, ratio),
      speed := FallSpeed(mobile, d.speed, ratio),
      opacity := 0.6 + d.opacity * 0.4,
      zIndex := RandomIndex(d.zIndex, 10),
      scale := baseScale + d.scale * scaleVariation,
      imageIndex := RandomIndex(d.image, ImageCount),
      horizontalDrift := (d.drift - 0.5) * 0.5,
      acceleration := 0.002 + d.acceleration * 0.005,
      rotationDirection := dir)
  }

  /** `n` consecutive petals with ids `startId`, `startId + 1`, ...: the
      initial batch. */
  function Batch(startId: nat, vp: Viewport, draws: seq<PetalDraws>): (ps: seq<Petal>)
    requires forall k :: 0 <= k < |draws| ==> ValidDraws(draws[k])
    ensures |ps| == |draws|
    ensures forall k :: 0 <= k < |ps| ==> ps[k] == PetalFromDraws(startId + k, vp, draws[k])
  {
    seq(|draws|, k requires 0 <= k < |draws| => PetalFromDraws(startId + k, vp, draws[k]))
  }

  // ----------------------------------------------------------- ids

  /** Ids strictly increase along the list (so no id appears twice). */
  ghost predicate IdsIncreasing(ps: seq<Petal>)
  {
    forall i, j :: 0 <= i < j < |ps| ==> ps[i].id < ps[j].id
  }

  ghost predicate IdsBelow(ps: seq<Petal>, bound: nat)
  {
    forall k :: 0 <= k < |ps| ==> ps[k].id < bound
  }

  ghost predicate IdsFrom(ps: seq<Petal>, lo: nat)
  {
    forall k :: 0 <= k < |ps| ==> lo <= ps[k].id
  }

  lemma BatchIds(startId: nat, vp: Viewport, draws: seq<PetalDraws>)
    requires forall k :: 0 <= k < |draws| ==> ValidDraws(draws[k])
    ensures IdsIncreasing(Batch(startId, vp, draws))
    ensures IdsFrom(Batch(startId, vp, draws), startId)
    ensures IdsBelow(Batch(startId, vp, draws), startId + |draws|)
  {
  }

  /** Appending petals whose ids are all above the old ones keeps ids
      increasing. */
  lemma IdsIncreasingAppend(a: seq<Petal>, b: seq<Petal>, bound: nat)
    requires IdsIncreasing(a) && IdsBelow(a, bound)
    requires IdsIncreasing(b) && IdsFrom(b, bound)
    ensures IdsIncreasing(a + b)
  {
    var ab := a + b;
    forall i, j | 0 <= i < j < |ab| ensures ab[i].id < ab[j].id {
      if j < |a| {
      } else if i < |a| {
        assert ab[i] == a[i] && ab[j] == b[j - |a|];
      } else {
        assert ab[i] == b[i - |a|] && ab[j] == b[j - |a|];
      }
    }
  }

  // --------------------------------------------------------- advance

  /** The petal after one frame while not scrolling, before the eviction
      test. Inside this branch of the source the scroll-dependent factors
      always take their non-scrolling values: sway 2.8, spin 1.0 and no
      scroll effect. */
  function Fall(p: Petal, wave: real -> real): (q: Petal)
    ensures q.speed == p.speed + p.acceleration
    ensures q.y == p.y + q.speed
    ensures q.x == p.x + p.horizontalDrift * 0.8 + wave(p.y / 200.0) * 1.96
    ensures q.(x := p.x, y := p.y, rotation := p.rotation, speed := p.speed) == p
  {
    var swayAmount := 2.8;
    var spin := 1.0;
    var newSpeed := p.speed + p.acceleration;
    var windEffect := wave(p.y / 200.0) * (swayAmount * 0.7);
    var x := p.x + (p.horizontalDrift * 0.8 + windEffect);
    var y := p.y + newSpeed + 0.0;
    var spinFactor := 1.0 + newSpeed / 5.0;
    var newRotation := p.rotation + p.rotationSpeed * spin * spinFactor * 1.2;
    var wobble := wave(y / 30.0) * 2.0 * p.rotationDirection as real;
    p.(x := x, y := y, rotation := newRotation + wobble, speed := newSpeed)
  }

  /** The petal after one frame while scrolling, before the eviction test:
      it rides 80% of the scroll delta and keeps its speed. */
  function Drift(p: Petal, scrollDelta: real): (q: Petal)
    ensures q.speed == p.speed
    ensures q.y == p.y + p.speed + 0.8 * scrollDelta
    ensures q.x == p.x + 0.3 * p.horizontalDrift
    ensures q.rotation == p.rotation + 0.1 * p.rotationSpeed
    ensures q.(x := p.x, y := p.y, rotation := p.rotation) == p
  {
    p.(x := p.x + p.horizontalDrift * 0.3,
       y := p.y + p.speed + scrollDelta * 0.8,
       rotation := p.rotation + p.rotationSpeed * 0.1)
  }

  /** The region a petal must be in to survive a frame. */
  predicate Inside(q: Petal, scrolling: bool, vp: Viewport)
  {
    if scrolling then q.y <= vp.height as real + 800.0
    else
      && q.y <= vp.height as real + 1500.0
      && -100.0 <= q.x <= vp.width as real + 100.0
  }

  /** One petal's frame: moved, then dropped (`None`) if it left the region. */
  function AdvancePetal(p: Petal, scrolling: bool, scrollDelta: real, vp: Viewport,
                        wave: real -> real): (r: Option<Petal>)
    ensures !scrolling ==>
      (r.None? <==> Fall(p, wave).y > vp.height as real + 1500.0
                    || Fall(p, wave).x < -100.0 || Fall(p, wave).x > vp.width as real + 100.0)
    ensures scrolling ==> (r.None? <==> Drift(p, scrollDelta).y > vp.height as real + 800.0)
    ensures r.Some? ==> Inside(r.value, scrolling, vp)
    ensures r.Some? ==> r.value.id == p.id && r.value.acceleration == p.acceleration
    ensures r.Some? && !scrolling ==> r.value == Fall(p, wave)
    ensures r.Some? && scrolling ==> r.value == Drift(p, scrollDelta)
  {
    var q := if scrolling then Drift(p, scrollDelta) else Fall(p, wave);
    if Inside(q, scrolling, vp) then Some(q) else None
  }

  /** While `Math.sin` stays in [-1, 1], the sideways sway of a frame is at
      most 2.8 * 0.7 pixels off the drift. */
  lemma SwayBounded(p: Petal, wave: real -> real)
    requires -1.0 <= wave(p.y / 200.0) <= 1.0
    ensures -1.96 <= Fall(p, wave).x - p.x - 0.8 * p.horizontalDrift <= 1.96
  {
  }

  /** The frame's map-then-filter over the whole list. */
  function AdvanceAll(ps: seq<Petal>, scrolling: bool, scrollDelta: real, vp: Viewport,
                      wave: real -> real): (r: seq<Petal>)
    ensures |r| <= |ps|
    ensures forall q :: q in r ==> Inside(q, scrolling, vp)
  {
    if ps == [] then []
    else
      var rest := AdvanceAll(ps[1..], scrolling, scrollDelta, vp, wave);
      match AdvancePetal(ps[0], scrolling, scrollDelta, vp, wave)
      case Some(q) => [q] + rest
      case None => rest
  }

  /** Every petal left after a frame is the outcome of some petal before
      it, and every petal that survives the frame is kept. */
  lemma {:induction false} AdvanceAllSurvivors(ps: seq<Petal>, scrolling: bool, scrollDelta: real,
                                               vp: Viewport, wave: real -> real)
    ensures forall q :: q in AdvanceAll(ps, scrolling, scrollDelta, vp, wave) ==>
      exists j :: 0 <= j < |ps| && AdvancePetal(ps[j], scrolling, scrollDelta, vp, wave) == Some(q)
    ensures forall j :: 0 <= j < |ps| && AdvancePetal(ps[j], scrolling, scrollDelta, vp, wave).Some? ==>
      AdvancePetal(ps[j], scrolling, scrollDelta, vp, wave).value in AdvanceAll(ps, scrolling, scrollDelta, vp, wave)
  {
    if ps != [] {
      var tail := ps[1..];
      AdvanceAllSurvivors(tail, scrolling, scrollDelta, vp, wave);
      assert forall j :: 1 <= j < |ps| ==> ps[j] == tail[j - 1];
    }
  }

  /** The advance works petal by petal, so it distributes over
      concatenation: survivors keep their input order. */
  lemma {:induction false} AdvanceAllConcat(a: seq<Petal>, b: seq<Petal>, scrolling: bool,
                                            scrollDelta: real, vp: Viewport, wave: real -> real)
    ensures AdvanceAll(a + b, scrolling, scrollDelta, vp, wave)
         == AdvanceAll(a, scrolling, scrollDelta, vp, wave) + AdvanceAll(b, scrolling, scrollDelta, vp, wave)
  {
    if a == [] {
      assert a + b == b;
    } else {
      assert (a + b)[1..] == a[1..] + b;
      AdvanceAllConcat(a[1..], b, scrolling, scrollDelta, vp, wave);
    }
  }

  /** A one-petal list advances to that petal's outcome. */
  lemma AdvanceAllSingle(p: Petal, scrolling: bool, scrollDelta: real, vp: Viewport,
                         wave: real -> real)
    ensures AdvanceAll([p], scrolling, scrollDelta, vp, wave)
         == match AdvancePetal(p, scrolling, scrollDelta, vp, wave)
            case Some(q) => [q]
            case None => []
  {
    assert [p][1..] == [];
  }

  /** Dropping petals never reorders ids, and never invents one. */
  lemma {:induction false} AdvanceAllIds(ps: seq<Petal>, scrolling: bool, scrollDelta: real,
                                         vp: Viewport, wave: real -> real, lo: nat, bound: nat)
    requires IdsIncreasing(ps) && IdsFrom(ps, lo) && IdsBelow(ps, bound)
    ensures IdsIncreasing(AdvanceAll(ps, scrolling, scrollDelta, vp, wave))
    ensures IdsFrom(AdvanceAll(ps, scrolling, scrollDelta, vp, wave), lo)
    ensures IdsBelow(AdvanceAll(ps, scrolling, scrollDelta, vp, wave), bound)
  {
    if ps != [] {
      var tail := ps[1..];
      assert forall k :: 0 <= k < |tail| ==> tail[k] == ps[k + 1];
      AdvanceAllIds(tail, scrolling, scrollDelta, vp, wave, ps[0].id + 1, bound);
      var rest := AdvanceAll(tail, scrolling, scrollDelta, vp, wave);
      match AdvancePetal(ps[0], scrolling, scrollDelta, vp, wave)
      case None =>
      case Some(q) =>
        assert q.id == ps[0].id;
        PrependIds(q, rest, lo, bound);
    }
  }

  lemma PrependIds(q: Petal, rest: seq<Petal>, lo: nat, bound: nat)
    requires IdsIncreasing(rest) && IdsFrom(rest, q.id + 1) && IdsBelow(rest, bound)
    requires lo <= q.id < bound
    ensures IdsIncreasing([q] + rest) && IdsFrom([q] + rest, lo) && IdsBelow([q] + rest, bound)
  {
    var r := [q] + rest;
    forall i, j | 0 <= i < j < |r| ensures r[i].id < r[j].id {
      assert r[j] == rest[j - 1];
      if i > 0 {
        assert r[i] == rest[i - 1];
      }
    }
  }

  /** A fixed number of frames without scrolling, one petal: `None` once the
      petal has been dropped. */
  function FallFrames(p: Petal, n: nat, vp: Viewport, wave: real -> real): Option<Petal>
  {
    if n == 0 then Some(p)
    else
      match FallFrames(p, n - 1, vp, wave)
      case None => None
      case Some(q) => AdvancePetal(q, false, 0.0, vp, wave)
  }

  /** The falling petal of the eviction scenario, `k` frames in. The wave
      is taken to be zero everywhere: a zero-sway scenario that isolates the
      vertical fall, which no sine satisfies. */
  lemma {:induction false} FallFramesSteady(p: Petal, k: nat, vp: Viewport, wave: real -> real)
    requires p.speed == 2.0 && p.acceleration == 0.0 && p.horizontalDrift == 0.0
    requires -100.0 <= p.x <= vp.width as real + 100.0
    requires forall t :: wave(t) == 0.0
    requires p.y + 2.0 * k as real <= vp.height as real + 1500.0
    ensures FallFrames(p, k, vp, wave).Some?
    ensures FallFrames(p, k, vp, wave).value.y == p.y + 2.0 * k as real
    ensures FallFrames(p, k, vp, wave).value.x == p.x
    ensures FallFrames(p, k, vp, wave).value.speed == 2.0
    ensures FallFrames(p, k, vp, wave).value.(x := p.x, y := p.y, rotation := p.rotation) == p
  {
    if k > 0 {
      FallFramesSteady(p, k - 1, vp, wave);
    }
  }

  /** A petal starting at y = -50 with speed 2 and no acceleration, in an
      800-pixel-high viewport, is still live after 1175 frames and is
      dropped on frame 1176, when y = 2302 first exceeds 800 + 1500. The
      wave is zero everywhere, so the sway plays no part; the real sine is
      not such a wave, and this is a zero-sway scenario only. */
  lemma EvictionScenario(p: Petal, width: nat, wave: real -> real)
    requires p.y == -50.0 && p.speed == 2.0 && p.acceleration == 0.0 && p.horizontalDrift == 0.0
    requires -100.0 <= p.x <= width as real + 100.0
    requires forall t :: wave(t) == 0.0
    ensures FallFrames(p, 1175, Viewport(width, 800), wave).Some?
    ensures FallFrames(p, 1176, Viewport(width, 800), wave).None?
  {
    FallFramesSteady(p, 1175, Viewport(width, 800), wave);
  }

  // ---------------------------------------------------------------- spawn

  /** How many petals one spawn tick adds; `scrolling` is the flag the spawn
      timer captured when it was set up. */
  function BatchCount(scrolling: bool, vp: Viewport, draw: real): (n: nat)
    requires InUnit(draw)
    ensures scrolling && IsMobile(vp) ==> n == 1
    ensures !scrolling && IsMobile(vp) ==> n == 2
    ensures !IsMobile(vp) ==> (n == 3 <==> draw < 0.5) && (n == 4 <==> 0.5 <= draw)
    ensures 1 <= n <= 4
  {
    var onMobileScroll := scrolling && IsMobile(vp);
    var baseCount := if onMobileScroll then 1 else if IsMobile(vp) then 2 else 3;
    var variation := if onMobileScroll then 1 else if IsMobile(vp) then 1 else 2;
    baseCount + RandomIndex(draw, variation)
  }

  /** The draws one spawned petal consumes: `createPetal`'s fourteen, then the
      two that re-place it. */
  datatype SpawnDraws = SpawnDraws(petal: PetalDraws, x: real, y: real)

  predicate ValidSpawnDraws(s: SpawnDraws)
  {
    ValidDraws(s.petal) && InUnit(s.x) && InUnit(s.y)
  }

  /** The width of one of the `count` columns a batch is spread over. */
  function Column(vp: Viewport, count: nat): (c: real)
    requires count > 0
    ensures 0.0 <= c
    ensures vp.width > 0 ==> c > 0.0
  {
    vp.width as real / count as real
  }

  lemma OffsetInColumn(r: real, vp: Viewport, count: nat)
    requires InUnit(r) && count > 0
    ensures 0.0 <= Across(r, vp.width) / count as real
    ensures vp.width > 0 ==> Across(r, vp.width) / count as real < Column(vp, count)
  {
    var a, w, c := Across(r, vp.width), vp.width as real, count as real;
    if vp.width > 0 {
      assert w / c - a / c == (w - a) / c;
      assert (w - a) / c > 0.0;
    }
  }

  /** The `i`-th petal of a batch of `count`: made by `createPetal`, then
      moved into column `i` and up to 800 pixels above the top edge. */
  function SpawnPetal(id: nat, vp: Viewport, count: nat, i: nat, s: SpawnDraws): (p: Petal)
    requires count > 0 && ValidSpawnDraws(s)
    ensures p.id == id
    ensures -850.0 < p.y <= -50.0
    ensures i as real * Column(vp, count) <= p.x
    ensures vp.width > 0 ==> p.x < (i + 1) as real * Column(vp, count)
    ensures p == PetalFromDraws(id, vp, s.petal).(x := p.x, y := p.y)
  {
    var offset := Across(s.x, vp.width) / count as real;
    OffsetInColumn(s.x, vp, count);
    PetalFromDraws(id, vp, s.petal).(
      x := Column(vp, count) * i as real + offset,
      y := -50.0 - s.y * 800.0)
  }

  /** The petals one spawn tick makes, ids from `startId` up. */
  function SpawnBatch(startId: nat, vp: Viewport, count: nat, draws: seq<SpawnDraws>): (ps: seq<Petal>)
    requires 0 < count <= |draws|
    requires forall k :: 0 <= k < |draws| ==> ValidSpawnDraws(draws[k])
    ensures |ps| == count
    ensures forall k :: 0 <= k < count ==> ps[k] == SpawnPetal(startId + k, vp, count, k, draws[k])
  {
    seq(count, k requires 0 <= k < count => SpawnPetal(startId + k, vp, count, k, draws[k]))
  }

  lemma SpawnBatchIds(startId: nat, vp: Viewport, count: nat, draws: seq<SpawnDraws>)
    requires 0 < count <= |draws|
    requires forall k :: 0 <= k < |draws| ==> ValidSpawnDraws(draws[k])
    ensures IdsIncreasing(SpawnBatch(startId, vp, count, draws))
    ensures IdsFrom(SpawnBatch(startId, vp, count, draws), startId)
    ensures IdsBelow(SpawnBatch(startId, vp, count, draws), startId + count)
  {
  }

  /** JavaScript's `s.slice(-n)`: the last `n` elements, or all of `s` when
      it is shorter (and, since `-0` is `0`, all of `s` when `n` is 0). */
  function SliceFromEnd<T>(s: seq<T>, n: nat): (r: seq<T>)
    ensures n > 0 ==> |r| == Min(|s|, n)
    ensures |r| <= |s| && r == s[|s| - |r|..]
    ensures n == 0 ==> r == s
  {
    if n == 0 || |s| <= n then s else s[|s| - n..]
  }

  // ------------------------------------------------------------- throttle

  /** Scrolling fast on a phone: the condition for the most degraded tier. */
  predicate IsFastScrolling(scrolling: bool, mobile: bool, speed: real)
  {
    scrolling && mobile && speed > FastScrollSpeed
  }

  /** The least time between two frames a phone draws, in ms. */
  function FrameInterval(scrolling: bool, mobile: bool, speed: real): (ms: real)
    ensures ms == 50.0 <==> IsFastScrolling(scrolling, mobile, speed)
    ensures ms == 33.0 <==> scrolling && !IsFastScrolling(scrolling, mobile, speed)
    ensures ms == 16.0 <==> !scrolling
  {
    if IsFastScrolling(scrolling, mobile, speed) then 50.0
    else if scrolling then 33.0
    else 16.0
  }

  /** Whether a frame at `elapsed` ms after the last drawn one is drawn; only
      phones throttle. */
  predicate FrameDue(scrolling: bool, mobile: bool, speed: real, elapsed: real)
  {
    !mobile || elapsed >= FrameInterval(scrolling, mobile, speed)
  }

  /** Degradation is re-read every frame: once scrolling stops, the very next
      frame is due after 16 ms, whatever the last speed sample was. */
  lemma ThrottleRecovers(mobile: bool, speed: real, elapsed: real)
    ensures FrameDue(false, mobile, speed, elapsed) <==> !mobile || elapsed >= 16.0
  {
  }

  /** A frame due at a degraded tier is due at every lighter tier. */
  lemma ThrottleMonotone(mobile: bool, speed: real, elapsed: real)
    ensures FrameDue(true, mobile, speed, elapsed) ==> FrameDue(false, mobile, speed, elapsed)
    ensures FrameInterval(true, mobile, speed) >= FrameInterval(false, mobile, speed)
  {
  }

  // ------------------------------------------------------------- rendering

  /** The container's style; opacity is lowered while scrolling on a phone,
      never to zero, and the layer always stays visible. */
  datatype ContainerStyle = ContainerStyle(opacity: real, transition: string,
                                           visibility: string, transform: string)

  function ContainerStyleFor(scrolling: bool, mobile: bool, speed: real): (c: ContainerStyle)
    ensures c.opacity == 0.2 || c.opacity == 0.6 || c.opacity == 1.0
    ensures c.opacity > 0.0
    ensures c.visibility == "visible"
    ensures c.opacity == 0.2 <==> IsFastScrolling(scrolling, mobile, speed)
    ensures c.opacity < 1.0 <==> scrolling && mobile
  {
    var opacity :=
      if IsFastScrolling(scrolling, mobile, speed) then 0.2
      else if scrolling && mobile then 0.6
      else 1.0;
    ContainerStyle(opacity, "opacity 300ms ease-out", "visible", "translateZ(0)")
  }

  /** The draw descriptor `renderPetal` emits for one petal (its cosmetic 3D
      rotation, blur and shadow left out). */
  datatype Sprite = Sprite(id: nat, left: real, top: real, size: real, opacity: real,
                           rotation: real, scale: real, zIndex: int, imageIndex: int,
                           simple: bool)

  /** While scrolling, only petals in the band from 500 pixels above the top
      to twice the viewport height are drawn. */
  predicate InRenderBand(p: Petal, scrolling: bool, vp: Viewport)
  {
    !scrolling || (-500.0 <= p.y && p.y <= 2.0 * vp.height as real)
  }

  function RenderPetal(p: Petal, scrolling: bool, mobile: bool, vp: Viewport): (r: Option<Sprite>)
    ensures r.Some? <==> InRenderBand(p, scrolling, vp)
    ensures r.Some? ==> r.value.id == p.id && r.value.left == p.x && r.value.top == p.y
    ensures r.Some? ==> r.value.opacity == if scrolling && mobile then p.opacity * 0.7 else p.opacity
  {
    if scrolling && (p.y < -500.0 || p.y > vp.height as real * 2.0) then None
    else
      Some(Sprite(p.id, p.x, p.y, p.size,
                  p.opacity * (if scrolling && mobile then 0.7 else 1.0),
                  p.rotation, p.scale, p.zIndex, p.imageIndex, scrolling && mobile))
  }

  /** `petals.map(renderPetal).filter(Boolean)`. */
  function RenderAll(ps: seq<Petal>, scrolling: bool, mobile: bool, vp: Viewport): (r: seq<Sprite>)
    ensures |r| <= |ps|
    ensures (forall k :: 0 <= k < |ps| ==> InRenderBand(ps[k], scrolling, vp)) ==>
      |r| == |ps| && forall k :: 0 <= k < |r| ==> Some(r[k]) == RenderPetal(ps[k], scrolling, mobile, vp)
    ensures forall sp :: sp in r ==>
      exists j :: 0 <= j < |ps| && RenderPetal(ps[j], scrolling, mobile, vp) == Some(sp)
  {
    if ps == [] then []
    else
      var rest := RenderAll(ps[1..], scrolling, mobile, vp);
      assert forall j :: 1 <= j < |ps| ==> ps[j] == ps[1..][j - 1];
      match RenderPetal(ps[0], scrolling, mobile, vp)
      case Some(sp) => [sp] + rest
      case None => rest
  }

  /** Every petal in the band is drawn, whatever the other petals do. */
  lemma {:induction false} RenderAllKeeps(ps: seq<Petal>, scrolling: bool, mobile: bool, vp: Viewport)
    ensures forall j :: 0 <= j < |ps| && InRenderBand(ps[j], scrolling, vp) ==>
      RenderPetal(ps[j], scrolling, mobile, vp).value in RenderAll(ps, scrolling, mobile, vp)
  {
    if ps != [] {
      var tail := ps[1..];
      RenderAllKeeps(tail, scrolling, mobile, vp);
      assert forall j :: 1 <= j < |ps| ==> ps[j] == tail[j - 1];
    }
  }

  /** Rendering works petal by petal, so it distributes over concatenation:
      the sprites keep the list order. */
  lemma {:induction false} RenderAllConcat(a: seq<Petal>, b: seq<Petal>, scrolling: bool, mobile: bool,
                                           vp: Viewport)
    ensures RenderAll(a + b, scrolling, mobile, vp)
         == RenderAll(a, scrolling, mobile, vp) + RenderAll(b, scrolling, mobile, vp)
  {
    if a == [] {
      assert a + b == b;
    } else {
      assert (a + b)[1..] == a[1..] + b;
      RenderAllConcat(a[1..], b, scrolling, mobile, vp);
    }
  }

  /** What the component draws this render. */
  function VisiblePetals(ps: seq<Petal>, scrolling: bool, speed: real, mobile: bool,
                         vp: Viewport): (r: seq<Sprite>)
    ensures scrolling && speed > FastScrollSpeed ==>
      |r| <= FastScrollRenderCap && r == RenderAll(ps[..Min(|ps|, FastScrollRenderCap)], scrolling, mobile, vp)
    ensures !(scrolling && speed > FastScrollSpeed) ==> r == RenderAll(ps, scrolling, mobile, vp)
    ensures |r| <= |ps|
  {
    if scrolling && speed > FastScrollSpeed then
      RenderAll(ps[..Min(|ps|, FastScrollRenderCap)], scrolling, mobile, vp)
    else
      RenderAll(ps, scrolling, mobile, vp)
  }

  /** Without scrolling every live petal is drawn, in list order. */
  lemma VisibleWhenIdle(ps: seq<Petal>, speed: real, mobile: bool, vp: Viewport)
    ensures |VisiblePetals(ps, false, speed, mobile, vp)| == |ps|
    ensures forall k :: 0 <= k < |ps| ==> VisiblePetals(ps, false, speed, mobile, vp)[k].id == ps[k].id
  {
    var r := VisiblePetals(ps, false, speed, mobile, vp);
    assert forall k :: 0 <= k < |ps| ==> InRenderBand(ps[k], false, vp);
    forall k | 0 <= k < |ps| ensures r[k].id == ps[k].id {
      assert Some(r[k]) == RenderPetal(ps[k], false, mobile, vp);
    }
  }

  /** Fast scrolling thins the drawing but does not empty it: when the first
      petals are in the drawn band, exactly `min(n, 40)` sprites are drawn. */
  lemma FastScrollNeverEmpties(ps: seq<Petal>, speed: real, mobile: bool, vp: Viewport)
    requires speed > FastScrollSpeed
    requires forall k :: 0 <= k < Min(|ps|, FastScrollRenderCap) ==> InRenderBand(ps[k], true, vp)
    ensures |VisiblePetals(ps, true, speed, mobile, vp)| == Min(|ps|, FastScrollRenderCap)
  {
    var head := ps[..Min(|ps|, FastScrollRenderCap)];
    assert forall k :: 0 <= k < |head| ==> head[k] == ps[k];
  }

  // ---------------------------------------------------- the field invariant

  /** What holds of the live list at all times: at most `max` petals, ids
      strictly increasing and below the counter, and every petal above the
      lowest removal line (viewport height + 1500). */
  ghost predicate FieldInvariant(ps: seq<Petal>, vp: Viewport, max: nat, nextId: nat)
  {
    && |ps| <= max
    && IdsIncreasing(ps)
    && IdsBelow(ps, nextId)
    && forall k :: 0 <= k < |ps| ==> ps[k].y <= vp.height as real + 1500.0
  }

  /** A seeded batch satisfies the invariant. */
  lemma BatchEstablishes(startId: nat, vp: Viewport, draws: seq<PetalDraws>, max: nat)
    requires forall k :: 0 <= k < |draws| ==> ValidDraws(draws[k])
    requires |draws| <= max
    ensures FieldInvariant(Batch(startId, vp, draws), vp, max, startId + |draws|)
  {
    BatchIds(startId, vp, draws);
  }

  /** A frame keeps the invariant: it only drops petals and every survivor
      is inside its branch's region. */
  lemma AdvancePreserves(ps: seq<Petal>, scrolling: bool, scrollDelta: real, vp: Viewport,
                         wave: real -> real, max: nat, nextId: nat)
    requires FieldInvariant(ps, vp, max, nextId)
    ensures FieldInvariant(AdvanceAll(ps, scrolling, scrollDelta, vp, wave), vp, max, nextId)
  {
    var r := AdvanceAll(ps, scrolling, scrollDelta, vp, wave);
    AdvanceAllIds(ps, scrolling, scrollDelta, vp, wave, 0, nextId);
    forall k | 0 <= k < |r| ensures r[k].y <= vp.height as real + 1500.0 {
      assert r[k] in r;
    }
  }

  /** A spawn tick keeps the invariant: new ids are above the old ones, new
      petals start above the top edge, and the cap trims from the front. */
  lemma SpawnPreserves(ps: seq<Petal>, vp: Viewport, max: nat, nextId: nat,
                       count: nat, draws: seq<SpawnDraws>)
    requires FieldInvariant(ps, vp, max, nextId) && max > 0
    requires 0 < count <= |draws|
    requires forall k :: 0 <= k < |draws| ==> ValidSpawnDraws(draws[k])
    ensures FieldInvariant(SliceFromEnd(ps + SpawnBatch(nextId, vp, count, draws), max),
                           vp, max, nextId + count)
  {
    var batch := SpawnBatch(nextId, vp, count, draws);
    SpawnBatchIds(nextId, vp, count, draws);
    var all := ps + batch;
    IdsIncreasingAppend(ps, batch, nextId);
    var r := SliceFromEnd(all, max);
    var off := |all| - |r|;
    assert forall k :: 0 <= k < |r| ==> r[k] == all[off + k];
    forall k | 0 <= k < |all|
      ensures all[k].id < nextId + count && all[k].y <= vp.height as real + 1500.0
    {
      if k >= |ps| {
        assert all[k] == batch[k - |ps|];
      }
    }
  }
}
