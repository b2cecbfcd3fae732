/** The petal field as the component keeps it from frame to frame
    (components/sakura-animation.tsx): the petal list, the id counter and the
    refs that the frame loop, the spawn timer and the scroll listener update.
    Each `requestAnimationFrame` pass is a call of `Tick`, each
    `setInterval` pass a call of `Spawn`; stopping is making no more calls. */
module PetalField {
  import opened Wrappers
  import opened Speed
  import opened Petals

  class Field {
    /** `dimensions` */
    var vp: Viewport
    /** `petals`: the live set, oldest first. */
    var petals: seq<Petal>
    /** `petalIdRef.current`: the next id to hand out. */
    var nextId: nat
    /** The `max` the running spawn timer caps the list at. */
    var maxPetals: nat
    /** `lastAnimationTimeRef.current`, ms. */
    var lastFrameTime: real
    /** `scrollSpeedRef.current`, pixels per 100 ms. */
    var scrollSpeed: real
    /** `lastScrollYRef.current`: the scroll offset the last frame saw. */
    var lastScrollY: real
    /** `isScrollingRef.current` */
    var isScrolling: bool
    /** The scroll listener's own last offset and time. */
    var sampleY: real
    var sampleTime: real

    /** The field's invariant: the list is within its cap, ids strictly
        increase along it and are all below the counter, and no petal is
        below the lowest removal line. */
    ghost predicate Valid()
      reads this`vp, this`petals, this`nextId, this`maxPetals
    {
      && maxPetals == OptimalPetalCount(vp).max
      && FieldInvariant(petals, vp, maxPetals, nextId)
    }

    /** The mounted component before its effects run; the scroll listener
        starts from the offset and time it reads when it is attached. */
    constructor (window: Option<Viewport>, scrolling: bool, scrollY: real, now: real)
      ensures Valid()
      ensures vp == MountViewport(window) && petals == [] && nextId == 0
      ensures maxPetals == OptimalPetalCount(vp).max
      ensures lastFrameTime == 0.0 && scrollSpeed == 0.0 && lastScrollY == 0.0
      ensures isScrolling == scrolling && sampleY == scrollY && sampleTime == now
    {
      vp := MountViewport(window);
      petals := [];
      nextId := 0;
      maxPetals := OptimalPetalCount(MountViewport(window)).max;
      lastFrameTime := 0.0;
      scrollSpeed := 0.0;
      lastScrollY := 0.0;
      isScrolling := scrolling;
      sampleY := scrollY;
      sampleTime := now;
    }

    /** `createPetal`: stamps the counter's value, then increments it. */
    method CreatePetal(d: PetalDraws) returns (p: Petal)
      requires ValidDraws(d)
      modifies this`nextId
      ensures p == PetalFromDraws(old(nextId), vp, d)
      ensures nextId == old(nextId) + 1
    {
      p := PetalFromDraws(nextId, vp, d);
      nextId := nextId + 1;
    }

    /** One run of the mount effect: seed the tier's initial batch (it
        replaces the list) and arm the spawn timer with the tier's cap. */
    method Start(draws: seq<PetalDraws>)
      requires |draws| >= OptimalPetalCount(vp).initial
      requires forall k :: 0 <= k < |draws| ==> ValidDraws(draws[k])
      modifies this`petals, this`nextId, this`maxPetals
      ensures Valid()
      ensures petals == Batch(old(nextId), vp, draws[..OptimalPetalCount(vp).initial])
      ensures |petals| == OptimalPetalCount(vp).initial
      ensures nextId == old(nextId) + OptimalPetalCount(vp).initial
      ensures maxPetals == OptimalPetalCount(vp).max
    {
      var counts := OptimalPetalCount(vp);
      var initialPetals: seq<Petal> := [];
      for i := 0 to counts.initial
        invariant nextId == old(nextId) + i
        invariant initialPetals == Batch(old(nextId), vp, draws[..i])
      {
        var p := CreatePetal(draws[i]);
        assert draws[..i + 1] == draws[..i] + [draws[i]];
        initialPetals := initialPetals + [p];
      }
      petals := initialPetals;
      maxPetals := counts.max;
      BatchEstablishes(old(nextId), vp, draws[..counts.initial], maxPetals);
    }

    /** A resize event, including the one the resize effect fires at mount.
        The handler always stores a fresh size object, and the petal-count
        callback depends on that whole object, so the mount effect is torn
        down and runs again even when the size is unchanged: the field is
        re-seeded for the (possibly new) tier. The id counter carries on. */
    method Resize(newVp: Viewport, draws: seq<PetalDraws>)
      requires |draws| >= OptimalPetalCount(newVp).initial
      requires forall k :: 0 <= k < |draws| ==> ValidDraws(draws[k])
      modifies this`vp, this`petals, this`nextId, this`maxPetals
      ensures Valid()
      ensures vp == newVp
      ensures petals == Batch(old(nextId), newVp, draws[..OptimalPetalCount(newVp).initial])
      ensures nextId == old(nextId) + OptimalPetalCount(newVp).initial
    {
      vp := newVp;
      Start(draws);
    }

    /** What a mount does: the mount effect seeds the list, then the resize
        effect's first `handleResize` call stores a fresh size object and the
        mount effect runs again, seeding a second batch. The mounted page
        therefore shows ids from `initial` upward, and the counter stands at
        twice the tier's initial count. */
    method Mount(first: seq<PetalDraws>, second: seq<PetalDraws>)
      requires |first| >= OptimalPetalCount(vp).initial && |second| >= OptimalPetalCount(vp).initial
      requires forall k :: 0 <= k < |first| ==> ValidDraws(first[k])
      requires forall k :: 0 <= k < |second| ==> ValidDraws(second[k])
      modifies this`vp, this`petals, this`nextId, this`maxPetals
      ensures Valid() && vp == old(vp)
      ensures petals == Batch(old(nextId) + OptimalPetalCount(vp).initial, vp,
                              second[..OptimalPetalCount(vp).initial])
      ensures forall k :: 0 <= k < |petals| ==> petals[k].id == old(nextId) + OptimalPetalCount(vp).initial + k
      ensures nextId == old(nextId) + 2 * OptimalPetalCount(vp).initial
    {
      Start(first);
      Resize(vp, second);
    }

    /** The effect that copies the `isScrolling` prop into its ref. */
    method SetScrolling(scrolling: bool)
      modifies this`isScrolling
      ensures isScrolling == scrolling
    {
      isScrolling := scrolling;
    }

    /** `detectScrollSpeed`: a speed sample whenever time has moved on. */
    method DetectScrollSpeed(now: real, scrollY: real)
      modifies this`scrollSpeed, this`sampleY, this`sampleTime
      ensures scrollSpeed == if now - old(sampleTime) > 0.0
                             then SpeedPer100ms(scrollY - old(sampleY), now - old(sampleTime))
                             else old(scrollSpeed)
      ensures sampleY == scrollY && sampleTime == now
    {
      var timeDelta := now - sampleTime;
      if timeDelta > 0.0 {
        scrollSpeed := SpeedPer100ms(scrollY - sampleY, timeDelta);
      }
      sampleTime := now;
      sampleY := scrollY;
    }

    /** `animatePetals(timestamp)`: note the scroll delta, skip the frame if
        a phone's throttle says so, otherwise advance every petal. The scroll
        offset is recorded even on a skipped frame. */
    method Tick(timestamp: real, scrollY: real, wave: real -> real) returns (due: bool)
      requires Valid()
      modifies this`petals, this`lastScrollY, this`lastFrameTime
      ensures Valid()
      ensures lastScrollY == scrollY
      ensures due == FrameDue(isScrolling, IsMobile(vp), scrollSpeed, timestamp - old(lastFrameTime))
      ensures !IsMobile(vp) ==> due
      ensures due ==> petals == AdvanceAll(old(petals), isScrolling, scrollY - old(lastScrollY), vp, wave)
      ensures !due ==> petals == old(petals)
      ensures lastFrameTime == if due && IsMobile(vp) then timestamp else old(lastFrameTime)
    {
      var scrollDelta;
      due, scrollDelta := Throttle(timestamp, scrollY);
      if due {
        ApplyAdvance(isScrolling, scrollDelta, wave);
      }
    }

    /** The part of `animatePetals` before `setPetals`: the scroll delta
        since the last frame, and on a phone the frame-interval check, which
        stamps the time of a frame that runs. */
    method Throttle(timestamp: real, scrollY: real) returns (due: bool, scrollDelta: real)
      modifies this`lastScrollY, this`lastFrameTime
      ensures lastScrollY == scrollY && scrollDelta == scrollY - old(lastScrollY)
      ensures due == FrameDue(isScrolling, IsMobile(vp), scrollSpeed, timestamp - old(lastFrameTime))
      ensures !IsMobile(vp) ==> due
      ensures lastFrameTime == if due && IsMobile(vp) then timestamp else old(lastFrameTime)
    {
      scrollDelta := scrollY - lastScrollY;
      lastScrollY := scrollY;
      due := FrameDue(isScrolling, IsMobile(vp), scrollSpeed, timestamp - lastFrameTime);
      if due && IsMobile(vp) {
        lastFrameTime := timestamp;
      }
    }

    /** The `setPetals` updater of a frame that runs. */
    method ApplyAdvance(scrolling: bool, scrollDelta: real, wave: real -> real)
      requires Valid()
      modifies this`petals
      ensures Valid()
      ensures petals == AdvanceAll(old(petals), scrolling, scrollDelta, vp, wave)
    {
      AdvancePreserves(petals, scrolling, scrollDelta, vp, wave, maxPetals, nextId);
      petals := AdvanceAll(petals, scrolling, scrollDelta, vp, wave);
    }

    /** `addNewPetals`: append a batch spread across the width and keep only
        the newest `maxPetals`. */
    method Spawn(scrolling: bool, countDraw: real, draws: seq<SpawnDraws>)
      requires Valid()
      requires InUnit(countDraw)
      requires |draws| >= BatchCount(scrolling, vp, countDraw)
      requires forall k :: 0 <= k < |draws| ==> ValidSpawnDraws(draws[k])
      modifies this`petals, this`nextId
      ensures Valid()
      ensures nextId == old(nextId) + BatchCount(scrolling, vp, countDraw)
      ensures petals == SliceFromEnd(old(petals) + SpawnBatch(old(nextId), vp,
                                     BatchCount(scrolling, vp, countDraw), draws), maxPetals)
    {
      var count := BatchCount(scrolling, vp, countDraw);
      var newPetals := CreateBatch(count, draws);
      SpawnPreserves(petals, vp, maxPetals, old(nextId), count, draws);
      petals := SliceFromEnd(petals + newPetals, maxPetals);
    }

    /** The loop of `addNewPetals`: create each petal, then move it into its
        column and above the top edge. */
    method CreateBatch(count: nat, draws: seq<SpawnDraws>) returns (newPetals: seq<Petal>)
      requires 0 < count <= |draws|
      requires forall k :: 0 <= k < |draws| ==> ValidSpawnDraws(draws[k])
      modifies this`nextId
      ensures newPetals == SpawnBatch(old(nextId), vp, count, draws)
      ensures nextId == old(nextId) + count
    {
      newPetals := [];
      for i := 0 to count
        invariant nextId == old(nextId) + i
        invariant |newPetals| == i
        invariant forall k :: 0 <= k < i ==>
          newPetals[k] == SpawnPetal(old(nextId) + k, vp, count, k, draws[k])
      {
        var p := CreatePetal(draws[i].petal);
        p := p.(x := Column(vp, count) * i as real + Across(draws[i].x, vp.width) / count as real);
        p := p.(y := -50.0 - draws[i].y * 800.0);
        newPetals := newPetals + [p];
      }
    }
  }
}
