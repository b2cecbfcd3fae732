/** The scroll controller of utils/smoothScroll.ts: the module-level
    variables as one record, the two easing curves, the desktop animation,
    the stepped phone animation, the scroll and cleanup handlers, and
    `finishScroll`. Each timer or animation-frame callback is a separate
    step the driver calls; `performance.now()` is the `now` parameter. */
module SmoothScroll {
  import opened Wrappers
  import opened Speed

  predicate IsMobile(width: int)
  {
    width <= 768
  }

  /** The fast-scroll threshold of the scroll listener, px per 100 ms;
      higher on phones to avoid flicker. */
  function SpeedThreshold(mobile: bool): (t: real)
    ensures t == 50.0 <==> mobile
    ensures t == 30.0 <==> !mobile
  {
    if mobile then 50.0 else 30.0
  }

  // ------------------------------------------------------------- state

  /** The module's variables together with the parts of the page they act
      on: the scroll offset, the `is-scrolling` and `is-fast-scrolling`
      classes of the root element, whether the body has pointer events
      disabled, and how many completion callbacks have run. */
  datatype ScrollState = ScrollState(
    lastScrollY: real,
    lastScrollTime: real,
    scrollSpeed: real,
    isProgrammaticScroll: bool,
    lastUserScrollPosition: real,
    userScrollTimestamp: real,
    isUserScrolling: bool,
    scrollY: real,
    scrollingClass: bool,
    fastScrollingClass: bool,
    pointerEventsOff: bool,
    callbacks: nat)

  function RunCallback(s: ScrollState, hasCallback: bool): (r: ScrollState)
    ensures r == s.(callbacks := r.callbacks)
    ensures r.callbacks == s.callbacks + (if hasCallback then 1 else 0)
  {
    if hasCallback then s.(callbacks := s.callbacks + 1) else s
  }

  /** The scroll listener of `initSmoothScrolling`. During a programmatic
      scroll it only moves the tracking pair. A user scroll records the
      user's position and time and marks the user as scrolling; it resamples
      the speed only when there is an earlier sample time strictly before
      `now`, and then the fast class is on exactly when the new sample exceeds
      the threshold. */
  function OnScrollEvent(s: ScrollState, now: real, mobile: bool): (r: ScrollState)
    ensures r.lastScrollY == s.scrollY && r.lastScrollTime == now
    ensures s.isProgrammaticScroll ==> r == s.(lastScrollY := s.scrollY, lastScrollTime := now)
    ensures !s.isProgrammaticScroll ==>
      && r.isUserScrolling && r.scrollingClass
      && r.lastUserScrollPosition == s.scrollY && r.userScrollTimestamp == now
      && !r.isProgrammaticScroll && r.scrollY == s.scrollY && r.callbacks == s.callbacks
      && r.pointerEventsOff == s.pointerEventsOff
      && (if s.lastScrollTime > 0.0 && now - s.lastScrollTime > 0.0 then
            && r.scrollSpeed == SpeedPer100ms(s.scrollY - s.lastScrollY, now - s.lastScrollTime)
            && (r.fastScrollingClass <==> r.scrollSpeed > SpeedThreshold(mobile))
          else
            r.scrollSpeed == s.scrollSpeed && r.fastScrollingClass == s.fastScrollingClass)
  {
    if s.isProgrammaticScroll then
      s.(lastScrollY := s.scrollY, lastScrollTime := now)
    else
      var user := s.(isUserScrolling := true,
                     lastUserScrollPosition := s.scrollY,
                     userScrollTimestamp := now,
                     scrollingClass := true);
      var deltaTime := now - s.lastScrollTime;
      var sampled :=
        if s.lastScrollTime > 0.0 && deltaTime > 0.0 then
          var speed := SpeedPer100ms(s.scrollY - s.lastScrollY, deltaTime);
          user.(scrollSpeed := speed, fastScrollingClass := speed > SpeedThreshold(mobile))
        else user;
      sampled.(lastScrollY := s.scrollY, lastScrollTime := now)
  }

  /** The 200 ms timeout after the last user scroll event. */
  function UserScrollEnded(s: ScrollState): (r: ScrollState)
    ensures !r.isUserScrolling && r == s.(isUserScrolling := false)
  {
    s.(isUserScrolling := false)
  }

  /** Whether `cleanupScroll`'s timeout puts the page back at the user's
      last position. */
  predicate CleanupRestores(s: ScrollState, now: real)
  {
    && !s.isUserScrolling
    && !s.isProgrammaticScroll
    && now - s.userScrollTimestamp < 1000.0
    && Abs(s.scrollY - s.lastUserScrollPosition) > 100.0
  }

  /** `cleanupScroll`'s timeout. Unless a programmatic scroll runs, the
      scroll classes and the speed are dropped. The position moves exactly
      when the user is idle, no programmatic scroll runs, the user scrolled
      less than a second ago and the page is more than 100 px away from
      where the user left it; it moves back to that position. During a
      programmatic scroll nothing changes. */
  function CleanupFires(s: ScrollState, now: real): (r: ScrollState)
    ensures r.scrollY != s.scrollY <==>
      !s.isUserScrolling && !s.isProgrammaticScroll && now - s.userScrollTimestamp < 1000.0
      && Abs(s.scrollY - s.lastUserScrollPosition) > 100.0
    ensures r.scrollY != s.scrollY ==> r.scrollY == s.lastUserScrollPosition
    ensures !s.isProgrammaticScroll ==>
      r.scrollSpeed == 0.0 && !r.scrollingClass && !r.fastScrollingClass
    ensures s.isProgrammaticScroll ==> r == s
    ensures r.lastUserScrollPosition == s.lastUserScrollPosition && r.isUserScrolling == s.isUserScrolling
      && r.isProgrammaticScroll == s.isProgrammaticScroll && r.callbacks == s.callbacks
      && r.pointerEventsOff == s.pointerEventsOff
    ensures r == s.(scrollY := r.scrollY, scrollSpeed := r.scrollSpeed,
                    scrollingClass := r.scrollingClass, fastScrollingClass := r.fastScrollingClass)
  {
    var cleared :=
      if !s.isProgrammaticScroll then
        s.(scrollingClass := false, fastScrollingClass := false, scrollSpeed := 0.0)
      else s;
    if CleanupRestores(cleared, now) then cleared.(scrollY := s.lastUserScrollPosition)
    else cleared
  }

  /** The synchronous part of `finishScroll`: the current offset becomes the
      expected one. */
  function FinishScroll(s: ScrollState, now: real): (r: ScrollState)
    ensures r.lastUserScrollPosition == s.scrollY && r.userScrollTimestamp == now
    ensures r == s.(lastUserScrollPosition := r.lastUserScrollPosition, userScrollTimestamp := now)
  {
    s.(lastUserScrollPosition := s.scrollY, userScrollTimestamp := now)
  }

  /** `finishScroll`'s first timeout: classes off, interactions back on, the
      programmatic flag and the speed reset, then the callback; position and
      expected position stay. */
  function FinishSettle(s: ScrollState, hasCallback: bool): (r: ScrollState)
    ensures !r.isProgrammaticScroll && r.scrollSpeed == 0.0
    ensures !r.scrollingClass && !r.fastScrollingClass && !r.pointerEventsOff
    ensures r.scrollY == s.scrollY && r.lastUserScrollPosition == s.lastUserScrollPosition
    ensures r.callbacks == s.callbacks + (if hasCallback then 1 else 0)
    ensures r == s.(isProgrammaticScroll := false, scrollSpeed := 0.0, scrollingClass := false,
                    fastScrollingClass := false, pointerEventsOff := false, callbacks := r.callbacks)
  {
    RunCallback(s.(scrollingClass := false, fastScrollingClass := false,
                   pointerEventsOff := false, isProgrammaticScroll := false,
                   scrollSpeed := 0.0), hasCallback)
  }

  /** `finishScroll`'s second timeout: the position changes exactly on a
      drift of more than 50 px, and afterwards the page is never more than
      50 px from the expected position. */
  function FinishRestore(s: ScrollState): (r: ScrollState)
    ensures r.scrollY != s.scrollY <==> Abs(s.scrollY - s.lastUserScrollPosition) > 50.0
    ensures Abs(r.scrollY - r.lastUserScrollPosition) <= 50.0
    ensures r == s.(scrollY := r.scrollY)
  {
    if Abs(s.scrollY - s.lastUserScrollPosition) > 50.0 then s.(scrollY := s.lastUserScrollPosition)
    else s
  }

  /** If nothing moves the page between `finishScroll` and its second
      timeout, the second timeout leaves the position alone. */
  lemma FinishThenRestoreStays(s: ScrollState, now: real, hasCallback: bool)
    ensures FinishRestore(FinishSettle(FinishScroll(s, now), hasCallback)).scrollY == s.scrollY
  {
  }

  // ------------------------------------------------------------- easing

  /** The desktop easing curve. */
  function EaseInOutQuad(t: real): real
  {
    if t < 0.5 then 2.0 * t * t else -1.0 + (4.0 - 2.0 * t) * t
  }

  lemma EaseInOutQuadEnds()
    ensures EaseInOutQuad(0.0) == 0.0 && EaseInOutQuad(1.0) == 1.0
    ensures EaseInOutQuad(0.5) == 2.0 * 0.5 * 0.5
  {
  }

  /** Multiplying by a non-negative factor keeps an order. */
  lemma ScaleMonotone(c: real, x: real, y: real)
    requires 0.0 <= c && x <= y
    ensures c * x <= c * y
  {
    assert c * y - c * x == c * (y - x);
  }

  lemma ScaleAntitone(c: real, x: real, y: real)
    requires c <= 0.0 && x <= y
    ensures c * x >= c * y
  {
    ScaleMonotone(-c, x, y);
    assert (-c) * x == -(c * x) && (-c) * y == -(c * y);
  }

  lemma ProductNonNegative(a: real, b: real)
    requires 0.0 <= a && 0.0 <= b
    ensures 0.0 <= a * b
  {
  }

  lemma EaseInOutQuadBounded(t: real)
    requires 0.0 <= t <= 1.0
    ensures 0.0 <= EaseInOutQuad(t) <= 1.0
  {
    if t < 0.5 {
      ScaleMonotone(t, t, 0.5);
      ProductNonNegative(t, t);
    } else {
      ProductNonNegative(1.0 - t, 1.0 - t);
      assert 1.0 - EaseInOutQuad(t) == 2.0 * ((1.0 - t) * (1.0 - t));
      ProductNonNegative(t - 0.5, 1.5 - t);
      assert EaseInOutQuad(t) - 0.5 == 2.0 * ((t - 0.5) * (1.5 - t));
    }
  }

  lemma EaseInOutQuadMonotoneLow(s: real, t: real)
    requires 0.0 <= s <= t < 0.5
    ensures EaseInOutQuad(s) <= EaseInOutQuad(t)
  {
    var ss, tt := s * s, t * t;
    assert ss <= s * t;
    assert s * t <= tt;
    assert EaseInOutQuad(s) == 2.0 * ss;
    assert EaseInOutQuad(t) == 2.0 * tt;
  }

  lemma EaseInOutQuadMonotoneHigh(s: real, t: real)
    requires 0.5 <= s <= t <= 1.0
    ensures EaseInOutQuad(s) <= EaseInOutQuad(t)
  {
    ProductNonNegative(t - s, 2.0 - (t + s));
    assert EaseInOutQuad(t) - EaseInOutQuad(s) == 2.0 * ((t - s) * (2.0 - (t + s)));
  }

  /** The curve never decreases on [0, 1]: the two branches meet at 0.5. */
  lemma EaseInOutQuadMonotone(s: real, t: real)
    requires 0.0 <= s <= t <= 1.0
    ensures EaseInOutQuad(s) <= EaseInOutQuad(t)
  {
    if t < 0.5 {
      EaseInOutQuadMonotoneLow(s, t);
    } else if s >= 0.5 {
      EaseInOutQuadMonotoneHigh(s, t);
    } else {
      EaseInOutQuadMonotoneHigh(0.5, t);
      assert EaseInOutQuad(0.5) == 0.5;
      EaseInOutQuadMonotoneLow(s, s);
      ScaleMonotone(s, s, 0.5);
      assert EaseInOutQuad(s) == 2.0 * (s * s);
    }
  }

  function Cube(x: real): real
  {
    x * x * x
  }

  /** The phone easing curve: `1 - (1 - x)^3` (a cubic, despite its name). */
  function EaseOutQuint(x: real): real
  {
    1.0 - Cube(1.0 - x)
  }

  lemma CubeMonotone(u: real, v: real)
    requires 0.0 <= u <= v
    ensures 0.0 <= Cube(u) <= Cube(v)
  {
    assert u * u <= v * v by {
      assert u * u <= u * v;
      assert u * v <= v * v;
    }
    assert u * u * u <= v * v * u;
    assert v * v * u <= v * v * v;
  }

  lemma EaseOutQuintEnds()
    ensures EaseOutQuint(0.0) == 0.0 && EaseOutQuint(1.0) == 1.0
  {
  }

  lemma EaseOutQuintMonotone(s: real, t: real)
    requires 0.0 <= s <= t <= 1.0
    ensures 0.0 <= EaseOutQuint(s) <= EaseOutQuint(t) <= 1.0
  {
    CubeMonotone(1.0 - t, 1.0 - s);
    CubeMonotone(1.0 - s, 1.0);
  }

  // --------------------------------------------------- desktop animation

  /** `Math.min(timeElapsed / duration, 1)`. A duration of zero or less
      finishes on the first frame in the source (its quotient is NaN, -0 or
      Infinity and the frame ends at the target), which the model makes
      progress 1. */
  function Progress(elapsed: real, duration: real): (p: real)
    ensures p <= 1.0
    ensures duration > 0.0 && elapsed >= 0.0 ==> 0.0 <= p
    ensures duration > 0.0 && elapsed >= duration ==> p == 1.0
    ensures duration > 0.0 && elapsed < duration ==> p < 1.0
  {
    if duration <= 0.0 then 1.0
    else if elapsed / duration < 1.0 then elapsed / duration
    else 1.0
  }

  /** Whether the frame at `elapsed` ms is the desktop animation's last. */
  predicate DesktopDone(elapsed: real, duration: real)
  {
    !(elapsed < duration && Progress(elapsed, duration) < 1.0)
  }

  /** The desktop animation stops exactly when its time is up. */
  lemma DesktopDoneIff(elapsed: real, duration: real)
    ensures DesktopDone(elapsed, duration) <==> elapsed >= duration || duration <= 0.0
  {
  }

  /** The eased offset of an unfinished frame lies on the way from the start
      to the target. */
  lemma DesktopFrameBetween(start: real, distance: real, elapsed: real, duration: real)
    requires duration > 0.0 && 0.0 <= elapsed
    ensures var y := start + distance * EaseInOutQuad(Progress(elapsed, duration));
      distance >= 0.0 ==> start <= y <= start + distance
    ensures var y := start + distance * EaseInOutQuad(Progress(elapsed, duration));
      distance <= 0.0 ==> start + distance <= y <= start
  {
    var e := EaseInOutQuad(Progress(elapsed, duration));
    EaseInOutQuadBounded(Progress(elapsed, duration));
    if distance >= 0.0 {
      ScaleMonotone(distance, 0.0, e);
      ScaleMonotone(distance, e, 1.0);
    } else {
      ScaleMonotone(-distance, 0.0, e);
      ScaleMonotone(-distance, e, 1.0);
    }
  }

  // --------------------------------------------------- stepped animation

  /** `Math.round`: the integer nearest `x`, halves rounded up. */
  function Round(x: real): (n: int)
    ensures x - 0.5 < n as real <= x + 0.5
  {
    (x + 0.5).Floor
  }

  lemma RoundInteger(n: int)
    ensures Round(n as real) == n
  {
  }

  lemma RoundMonotone(x: real, y: real)
    requires x <= y
    ensures Round(x) <= Round(y)
  {
  }

  /** `Math.min(Math.floor(duration / 40), 6)`; zero or negative below
      40 ms. */
  function StepCount(duration: real): (n: int)
    ensures n <= 6
    ensures duration >= 240.0 ==> n == 6
    ensures 40.0 <= duration ==> 1 <= n
    ensures 0.0 <= duration < 40.0 ==> n == 0
    ensures n < 6 ==> 40.0 * n as real <= duration < 40.0 * (n + 1) as real
  {
    var q := (duration / 40.0).Floor;
    if q < 6 then q else 6
  }

  /** `currentStep / steps`. */
  function Fraction(step: int, steps: int): (f: real)
    requires steps > 0
    ensures 0 <= step <= steps ==> 0.0 <= f <= 1.0
    ensures step == steps ==> f == 1.0
  {
    var f := step as real / steps as real;
    assert f * steps as real == step as real;
    f
  }

  lemma FractionMonotone(a: int, b: int, steps: int)
    requires 0 <= a <= b <= steps && steps > 0
    ensures Fraction(a, steps) <= Fraction(b, steps)
  {
    var fa, fb := Fraction(a, steps), Fraction(b, steps);
    assert fa * steps as real == a as real;
    assert fb * steps as real == b as real;
    if fa > fb {
      ScaleMonotone(steps as real, fb, fa);
    }
  }

  /** `startPosition + distance * easedProgress` before rounding. */
  function EasedOffset(start: real, distance: real, f: real): real
  {
    start + distance * EaseOutQuint(f)
  }

  lemma EasedOffsetMonotone(start: real, distance: real, f: real, g: real)
    requires 0.0 <= f <= g <= 1.0
    ensures distance >= 0.0 ==>
      start <= EasedOffset(start, distance, f) <= EasedOffset(start, distance, g) <= start + distance
    ensures distance <= 0.0 ==>
      start >= EasedOffset(start, distance, f) >= EasedOffset(start, distance, g) >= start + distance
  {
    EaseOutQuintMonotone(f, g);
    EaseOutQuintMonotone(g, 1.0);
    var ef, eg := EaseOutQuint(f), EaseOutQuint(g);
    assert EasedOffset(start, distance, f) == start + distance * ef;
    assert EasedOffset(start, distance, g) == start + distance * eg;
    assert distance * 1.0 == distance && distance * 0.0 == 0.0;
    if distance >= 0.0 {
      ScaleMonotone(distance, 0.0, ef);
      ScaleMonotone(distance, ef, eg);
      ScaleMonotone(distance, eg, 1.0);
      assert 0.0 <= distance * ef <= distance * eg <= distance;
    }
    if distance <= 0.0 {
      ScaleAntitone(distance, 0.0, ef);
      ScaleAntitone(distance, ef, eg);
      ScaleAntitone(distance, eg, 1.0);
      assert 0.0 >= distance * ef >= distance * eg >= distance;
    }
  }

  lemma EasedOffsetAtEnd(start: real, distance: real)
    ensures EasedOffset(start, distance, 1.0) == start + distance
  {
    var e := EaseOutQuint(1.0);
    assert Cube(0.0) == 0.0;
    assert e == 1.0;
    assert distance * e == distance;
  }

  /** The offset of step `step` of `steps`. */
  function StepPosition(start: real, distance: real, step: int, steps: int): int
    requires steps > 0
  {
    Round(EasedOffset(start, distance, Fraction(step, steps)))
  }

  /** Steps never move away from the target, and never overshoot it. */
  lemma StepPositionMonotone(start: real, distance: real, a: int, b: int, steps: int)
    requires 0 <= a <= b <= steps && steps > 0
    ensures distance >= 0.0 ==>
      Round(start) <= StepPosition(start, distance, a, steps) <= StepPosition(start, distance, b, steps)
      <= Round(start + distance)
    ensures distance <= 0.0 ==>
      Round(start) >= StepPosition(start, distance, a, steps) >= StepPosition(start, distance, b, steps)
      >= Round(start + distance)
  {
    FractionMonotone(a, b, steps);
    var fa, fb := Fraction(a, steps), Fraction(b, steps);
    EasedOffsetMonotone(start, distance, fa, fb);
    var ya, yb := EasedOffset(start, distance, fa), EasedOffset(start, distance, fb);
    if distance >= 0.0 {
      RoundMonotone(start, ya);
      RoundMonotone(ya, yb);
      RoundMonotone(yb, start + distance);
    } else {
      RoundMonotone(ya, start);
      RoundMonotone(yb, ya);
      RoundMonotone(start + distance, yb);
    }
  }

  /** The eased position of the step numbered `steps` is the target
      itself when the target is a whole pixel. */
  lemma LastStepOnTarget(start: real, distance: real, steps: int, target: int)
    requires steps > 0 && start + distance == target as real
    ensures StepPosition(start, distance, steps, steps) == target
  {
    EasedOffsetAtEnd(start, distance);
    assert Fraction(steps, steps) == 1.0;
    RoundInteger(target);
  }

  /** The positions an uninterrupted stepped scroll visits, one per
      `doStep` call: the rounded eased offsets of steps 1 to `steps - 1`,
      then the target. With fewer than two steps the first call lands on
      the target. */
  function SteppedRun(start: real, target: real, steps: int): (ys: seq<real>)
    ensures |ys| == if steps <= 1 then 1 else steps
    ensures ys[|ys| - 1] == target
    ensures steps > 1 ==>
      forall k :: 0 <= k < steps - 1 ==> ys[k] == StepPosition(start, target - start, k + 1, steps) as real
  {
    if steps <= 1 then [target]
    else
      seq(steps - 1, k requires 0 <= k < steps - 1 => StepPosition(start, target - start, k + 1, steps) as real)
      + [target]
  }

  /** Scrolling down to a whole-pixel target, an uninterrupted stepped
      scroll never moves back up and never passes the target. */
  lemma SteppedRunMonotone(start: real, target: real, steps: int)
    requires start <= target && target.Floor as real == target
    ensures var ys := SteppedRun(start, target, steps);
      forall i, j :: 0 <= i <= j < |ys| ==> ys[i] <= ys[j] <= target
  {
    var ys := SteppedRun(start, target, steps);
    var distance := target - start;
    RoundInteger(target.Floor);
    assert Round(start + distance) as real == target;
    forall i, j | 0 <= i <= j < |ys|
      ensures ys[i] <= ys[j] <= target
    {
      if j < |ys| - 1 {
        StepPositionMonotone(start, distance, i + 1, j + 1, steps);
      } else if i < |ys| - 1 {
        StepPositionMonotone(start, distance, i + 1, i + 1, steps);
      }
    }
  }

  // ------------------------------------------------------------ controller

  /** The module state; `initSmoothScrolling` has attached its listeners. */
  class Controller {
    var lastScrollY: real
    var lastScrollTime: real
    var scrollSpeed: real
    var isProgrammaticScroll: bool
    var lastUserScrollPosition: real
    var userScrollTimestamp: real
    var isUserScrolling: bool
    /** `window.scrollY` */
    var scrollY: real
    /** `window.innerWidth` */
    var width: int
    var scrollingClass: bool
    var fastScrollingClass: bool
    var pointerEventsOff: bool
    var callbacks: nat
    /** The header offset and duration anchor clicks scroll with. */
    const headerOffset: real
    const scrollDuration: real

    function State(): ScrollState
      reads this
    {
      ScrollState(lastScrollY, lastScrollTime, scrollSpeed, isProgrammaticScroll,
                  lastUserScrollPosition, userScrollTimestamp, isUserScrolling,
                  scrollY, scrollingClass, fastScrollingClass, pointerEventsOff, callbacks)
    }

    /** `initSmoothScrolling(headerOffset)` on a page at `scrollY` with the
        module variables at their initial values. */
    constructor (scrollY: real, width: int, headerOffset: real)
      ensures State() == ScrollState(0.0, 0.0, 0.0, false, 0.0, 0.0, false, scrollY,
                                     false, false, false, 0)
      ensures this.width == width && this.headerOffset == headerOffset
      ensures scrollDuration == if IsMobile(width) then 300.0 else 600.0
    {
      lastScrollY, lastScrollTime, scrollSpeed := 0.0, 0.0, 0.0;
      isProgrammaticScroll := false;
      lastUserScrollPosition, userScrollTimestamp := 0.0, 0.0;
      isUserScrolling := false;
      this.scrollY := scrollY;
      this.width := width;
      scrollingClass, fastScrollingClass, pointerEventsOff := false, false, false;
      callbacks := 0;
      this.headerOffset := headerOffset;
      scrollDuration := if IsMobile(width) then 300.0 else 600.0;
    }

    /** The user (or the browser) moves the page. */
    method MoveTo(y: real)
      modifies this`scrollY
      ensures scrollY == y
    {
      scrollY := y;
    }

    method Resize(w: int)
      modifies this`width
      ensures width == w
    {
      width := w;
    }

    /** A `scroll` event reaching the speed-tracking listener. */
    method OnScroll(now: real)
      modifies this
      ensures State() == OnScrollEvent(old(State()), now, IsMobile(old(width)))
      ensures width == old(width)
    {
      var currentScrollY := scrollY;
      if isProgrammaticScroll {
        lastScrollY := currentScrollY;
        lastScrollTime := now;
        return;
      }
      isUserScrolling := true;
      lastUserScrollPosition := currentScrollY;
      userScrollTimestamp := now;
      scrollingClass := true;
      if lastScrollTime > 0.0 {
        var deltaTime := now - lastScrollTime;
        if deltaTime > 0.0 {
          scrollSpeed := SpeedPer100ms(currentScrollY - lastScrollY, deltaTime);
          fastScrollingClass := scrollSpeed > SpeedThreshold(IsMobile(width));
        }
      }
      lastScrollY := currentScrollY;
      lastScrollTime := now;
    }

    /** The 200 ms timeout armed by the last user scroll event. */
    method OnUserScrollTimeout()
      modifies this`isUserScrolling
      ensures State() == UserScrollEnded(old(State()))
    {
      isUserScrolling := false;
    }

    /** The timeout armed by `cleanupScroll` on the last scroll event. */
    method OnCleanupTimeout(now: real)
      modifies this
      ensures State() == CleanupFires(old(State()), now)
      ensures width == old(width)
    {
      if !isProgrammaticScroll {
        scrollingClass := false;
        fastScrollingClass := false;
        scrollSpeed := 0.0;
      }
      if !isUserScrolling && !isProgrammaticScroll {
        var currentPosition := scrollY;
        var timeSinceUserScroll := now - userScrollTimestamp;
        if timeSinceUserScroll < 1000.0 && Abs(currentPosition - lastUserScrollPosition) > 100.0 {
          scrollY := lastUserScrollPosition;
        }
      }
    }

    /** The synchronous part of `finishScroll`. */
    method Finish(now: real)
      modifies this`lastUserScrollPosition, this`userScrollTimestamp
      ensures State() == FinishScroll(old(State()), now)
    {
      lastUserScrollPosition := scrollY;
      userScrollTimestamp := now;
    }

    /** `finishScroll`'s first timeout. */
    method OnFinishSettle(hasCallback: bool)
      modifies this
      ensures State() == FinishSettle(old(State()), hasCallback)
      ensures width == old(width)
    {
      scrollingClass := false;
      fastScrollingClass := false;
      pointerEventsOff := false;
      isProgrammaticScroll := false;
      scrollSpeed := 0.0;
      if hasCallback {
        callbacks := callbacks + 1;
      }
    }

    /** `finishScroll`'s second timeout. */
    method OnFinishRestore()
      modifies this`scrollY
      ensures State() == FinishRestore(old(State()))
    {
      if Abs(scrollY - lastUserScrollPosition) > 50.0 {
        scrollY := lastUserScrollPosition;
      }
    }

    /** `smoothScrollTo(target, duration, callback)`. A jump of less than
        50 px happens at once and runs the callback; otherwise a phone gets
        a stepped scroll and a desktop an eased one, each returned as the
        state of its pending callbacks. */
    method SmoothScrollTo(target: real, duration: real, hasCallback: bool, now: real)
      returns (desktop: DesktopScroll?, stepped: SteppedScroll?)
      modifies this
      ensures width == old(width)
      ensures Abs(target - old(scrollY)) < 50.0 ==>
        desktop == null && stepped == null
        && State() == RunCallback(old(State()).(scrollY := target), hasCallback)
      ensures Abs(target - old(scrollY)) >= 50.0 && !IsMobile(width) ==>
        && stepped == null && desktop != null && fresh(desktop)
        && desktop.ctrl == this && desktop.start == old(scrollY) && desktop.target == target
        && desktop.distance == target - old(scrollY) && desktop.duration == duration
        && desktop.hasCallback == hasCallback
        && desktop.startTime.None? && !desktop.finished
        && State() == old(State()).(isProgrammaticScroll := true, scrollingClass := true,
                                    pointerEventsOff := true)
      ensures Abs(target - old(scrollY)) >= 50.0 && IsMobile(width) && Abs(target - old(scrollY)) < 150.0 ==>
        && desktop == null && stepped == null
        && State() == FinishScroll(old(State()).(isProgrammaticScroll := true, scrollingClass := true,
                                                 scrollY := target), now)
      ensures Abs(target - old(scrollY)) >= 150.0 && IsMobile(width) ==>
        && desktop == null && stepped != null && fresh(stepped)
        && stepped.ctrl == this && stepped.start == old(scrollY) && stepped.target == target
        && stepped.distance == target - old(scrollY) && stepped.hasCallback == hasCallback
        && stepped.steps == StepCount(duration) && stepped.currentStep == 0
        && stepped.isScrolling && !stepped.finished && stepped.wheelArmed && stepped.touchArmed
        && State() == old(State()).(isProgrammaticScroll := true, lastUserScrollPosition := target,
                                    scrollingClass := true)
    {
      desktop, stepped := null, null;
      var currentPosition := scrollY;
      if Abs(target - currentPosition) < 50.0 {
        scrollY := target;
        if hasCallback {
          callbacks := callbacks + 1;
        }
        return;
      }
      if IsMobile(width) {
        stepped := SimpleSmoothScrollMobile(currentPosition, target, duration, hasCallback, now);
        return;
      }
      isProgrammaticScroll := true;
      scrollingClass := true;
      pointerEventsOff := true;
      desktop := new DesktopScroll(this, currentPosition, target, duration, hasCallback);
    }

    /** `simpleSmoothScrollMobile`: less than 150 px is a jump; otherwise a
        stepped scroll whose first step the driver runs 10 ms later. */
    method SimpleSmoothScrollMobile(start: real, target: real, duration: real,
                                    hasCallback: bool, now: real)
      returns (stepped: SteppedScroll?)
      modifies this
      ensures width == old(width)
      ensures Abs(target - start) < 150.0 ==>
        stepped == null
        && State() == FinishScroll(old(State()).(isProgrammaticScroll := true, scrollingClass := true,
                                                 lastUserScrollPosition := target, scrollY := target), now)
      ensures Abs(target - start) >= 150.0 ==>
        && stepped != null && fresh(stepped)
        && stepped.ctrl == this && stepped.start == start && stepped.target == target
        && stepped.distance == target - start && stepped.hasCallback == hasCallback
        && stepped.steps == StepCount(duration) && stepped.currentStep == 0
        && stepped.isScrolling && !stepped.finished && stepped.wheelArmed && stepped.touchArmed
        && State() == old(State()).(isProgrammaticScroll := true, lastUserScrollPosition := target,
                                    scrollingClass := true)
    {
      isProgrammaticScroll := true;
      lastUserScrollPosition := target;
      scrollingClass := true;
      var distance := target - start;
      if Abs(distance) < 150.0 {
        scrollY := target;
        Finish(now);
        return null;
      }
      stepped := new SteppedScroll(this, start, target, duration, hasCallback);
    }

    /** A click inside an anchor whose `href` starts with `#`: scroll to the
        element with that id, `headerOffset` above it. `href` is `None` for a
        click outside any such anchor, `elementTop` is `None` when no element
        has the id. */
    method OnAnchorClick(href: Option<string>, elementTop: Option<real>, now: real)
      returns (desktop: DesktopScroll?, stepped: SteppedScroll?)
      modifies this
      ensures width == old(width)
      ensures href.None? || |href.value| <= 1 || elementTop.None? ==>
        desktop == null && stepped == null && State() == old(State())
      ensures href.Some? && |href.value| > 1 && elementTop.Some? ==>
        State().isProgrammaticScroll || scrollY == elementTop.value + old(scrollY) - headerOffset
    {
      desktop, stepped := null, null;
      if href.Some? && |href.value| > 1 && elementTop.Some? {
        var targetPosition := elementTop.value + scrollY - headerOffset;
        desktop, stepped := SmoothScrollTo(targetPosition, scrollDuration, false, now);
      }
    }
  }

  /** The desktop animation's closure: `startPosition`, `distance`, the
      lazily set `startTime`, and whether it has handed over to
      `finishScroll`. */
  class DesktopScroll {
    const ctrl: Controller
    const start: real
    const target: real
    const distance: real
    const duration: real
    const hasCallback: bool
    var startTime: Option<real>
    var finished: bool

    constructor (ctrl: Controller, start: real, target: real, duration: real, hasCallback: bool)
      ensures this.ctrl == ctrl && this.start == start && this.target == target
      ensures distance == target - start && this.duration == duration
      ensures this.hasCallback == hasCallback && startTime.None? && !finished
    {
      this.ctrl := ctrl;
      this.start := start;
      this.target := target;
      distance := target - start;
      this.duration := duration;
      this.hasCallback := hasCallback;
      startTime := None;
      finished := false;
    }

    /** `animateScroll(currentTime)`: one animation frame. The last frame
        puts the page exactly on the target and calls `finishScroll` (whose
        clock reading is taken as `currentTime`). */
    method Frame(currentTime: real)
      requires !finished
      modifies this, ctrl
      ensures startTime == Some(if old(startTime).Some? then old(startTime).value else currentTime)
      ensures finished == DesktopDone(currentTime - startTime.value, duration)
      ensures ctrl.width == old(ctrl.width)
      ensures finished ==> ctrl.State() == FinishScroll(old(ctrl.State()).(scrollY := target), currentTime)
      ensures !finished ==> ctrl.State() == old(ctrl.State()).(scrollY :=
        start + distance * EaseInOutQuad(Progress(currentTime - startTime.value, duration)))
    {
      if startTime.None? {
        startTime := Some(currentTime);
      }
      var timeElapsed := currentTime - startTime.value;
      var progress := Progress(timeElapsed, duration);
      var eased := EaseInOutQuad(progress);
      ctrl.MoveTo(start + distance * eased);
      if timeElapsed < duration && progress < 1.0 {
        finished := false;
      } else {
        ctrl.MoveTo(target);
        ctrl.Finish(currentTime);
        finished := true;
      }
    }
  }

  /** The stepped phone animation's closure: its fixed plan, `currentStep`,
      the local `isScrolling` flag, the two one-shot interrupt listeners, and
      whether it has handed over to `finishScroll`. */
  class SteppedScroll {
    const ctrl: Controller
    const start: real
    const target: real
    const distance: real
    const steps: int
    const hasCallback: bool
    var currentStep: nat
    var isScrolling: bool
    var finished: bool
    var wheelArmed: bool
    var touchArmed: bool

    constructor (ctrl: Controller, start: real, target: real, duration: real, hasCallback: bool)
      ensures this.ctrl == ctrl && this.start == start && this.target == target
      ensures distance == target - start && steps == StepCount(duration)
      ensures this.hasCallback == hasCallback && currentStep == 0
      ensures isScrolling && !finished && wheelArmed && touchArmed
    {
      this.ctrl := ctrl;
      this.start := start;
      this.target := target;
      distance := target - start;
      steps := StepCount(duration);
      this.hasCallback := hasCallback;
      currentStep := 0;
      isScrolling := true;
      finished := false;
      wheelArmed, touchArmed := true, true;
    }

    /** `doStep`: give up if interrupted; otherwise advance one step, and on
        the last step land on the target and call `finishScroll`. On the last
        step the source first scrolls to the eased position and at once to
        the target; the model keeps only the second. */
    method DoStep(now: real)
      requires !finished
      modifies this`currentStep, this`finished, ctrl
      ensures ctrl.width == old(ctrl.width)
      ensures !old(ctrl.isProgrammaticScroll) || !isScrolling ==>
        finished && currentStep == old(currentStep) && ctrl.State() == FinishScroll(old(ctrl.State()), now)
      ensures old(ctrl.isProgrammaticScroll) && isScrolling ==>
        && currentStep == old(currentStep) + 1
        && finished == (currentStep >= steps)
        && (finished ==> ctrl.State() == FinishScroll(old(ctrl.State()).(scrollY := target), now))
        && (!finished ==> ctrl.State() == old(ctrl.State()).(scrollY :=
              StepPosition(start, distance, currentStep, steps) as real))
    {
      if !ctrl.isProgrammaticScroll || !isScrolling {
        ctrl.Finish(now);
        finished := true;
        return;
      }
      currentStep := currentStep + 1;
      if currentStep < steps {
        var newPosition := StepPosition(start, distance, currentStep, steps);
        ctrl.MoveTo(newPosition as real);
        finished := false;
      } else {
        ctrl.MoveTo(target);
        ctrl.Finish(now);
        finished := true;
      }
    }

    /** `k` uninterrupted `doStep` calls: the page is at the `k`-th position
        of `SteppedRun`, and the scroll has finished exactly after the last. */
    method RunSteps(k: nat, now: real)
      requires distance == target - start
      requires !finished && currentStep == 0 && isScrolling && ctrl.isProgrammaticScroll
      requires 1 <= k <= |SteppedRun(start, target, steps)|
      modifies this`currentStep, this`finished, ctrl
      ensures currentStep == k && ctrl.width == old(ctrl.width)
      ensures ctrl.scrollY == SteppedRun(start, target, steps)[k - 1]
      ensures finished == (k == |SteppedRun(start, target, steps)|)
    {
      ghost var ys := SteppedRun(start, target, steps);
      var i := 0;
      while i < k
        invariant 0 <= i <= k && currentStep == i
        invariant ctrl.isProgrammaticScroll && isScrolling
        invariant ctrl.width == old(ctrl.width)
        invariant finished == (i > 0 && i >= steps)
        invariant i > 0 ==> ctrl.scrollY == ys[i - 1]
      {
        DoStep(now);
        assert ctrl.scrollY == ctrl.State().scrollY;
        if currentStep < steps {
          assert ys[i] == StepPosition(start, distance, i + 1, steps) as real;
        } else {
          assert ys[i] == target;
        }
        i := i + 1;
      }
    }

    /** `interruptScroll` from the one-shot `wheel` listener: it clears the
        local flag only while a programmatic scroll is active, and never
        fires twice. */
    method OnWheel()
      modifies this`isScrolling, this`wheelArmed
      ensures !wheelArmed
      ensures isScrolling == (old(isScrolling) && !(old(wheelArmed) && ctrl.isProgrammaticScroll))
    {
      if wheelArmed {
        wheelArmed := false;
        Interrupt();
      }
    }

    /** `interruptScroll` from the one-shot `touchmove` listener. */
    method OnTouchMove()
      modifies this`isScrolling, this`touchArmed
      ensures !touchArmed
      ensures isScrolling == (old(isScrolling) && !(old(touchArmed) && ctrl.isProgrammaticScroll))
    {
      if touchArmed {
        touchArmed := false;
        Interrupt();
      }
    }

    method Interrupt()
      modifies this`isScrolling
      ensures isScrolling == (old(isScrolling) && !ctrl.isProgrammaticScroll)
    {
      if ctrl.isProgrammaticScroll {
        isScrolling := false;
      }
    }
  }
}
