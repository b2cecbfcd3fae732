/** The reveal-on-scroll helper of utils/smoothReveal.ts: the animation
    options and their merge, the initial transform string, the defaults
    read from `data-animate-direction` and `data-animate-delay`, and the
    in-place styling done by `initSmoothReveal`, `setInitialStyles` and
    `animateElement`. JavaScript's number-to-text conversion is the
    parameter `show`. */
module SmoothReveal {
  import opened Wrappers

  // ------------------------------------------------------------- options

  /** `defaultOptions`: the observer's trigger ratio and root margin. */
  const ObserverThreshold: real := 0.1
  const ObserverRootMargin: string := "0px 0px -10% 0px"

  const HasAnimated: string := "has-animated"

  datatype AnimationOptions = AnimationOptions(
    duration: real,
    delay: real,
    easing: string,
    once: bool,
    distance: string,
    opacity: real,
    scale: real)

  /** `defaultAnimationOptions`, whose duration and scale depend on whether
      the page was loaded on a phone. */
  function DefaultAnimationOptions(mobile: bool): (o: AnimationOptions)
    ensures o.duration == (if mobile then 600.0 else 800.0)
    ensures o.scale == (if mobile then 0.97 else 0.95)
    ensures o.delay == 0.0 && o.once && o.opacity == 0.0 && o.distance == "30px"
    ensures o.easing == "cubic-bezier(0.25, 0.1, 0.25, 1.0)"
  {
    AnimationOptions(if mobile then 600.0 else 800.0, 0.0, "cubic-bezier(0.25, 0.1, 0.25, 1.0)",
                     true, "30px", 0.0, if mobile then 0.97 else 0.95)
  }

  /** The caller's `Partial<…>` options; `None` is a key not supplied. */
  datatype PartialOptions = PartialOptions(
    duration: Option<real>,
    delay: Option<real>,
    easing: Option<string>,
    once: Option<bool>,
    distance: Option<string>,
    opacity: Option<real>,
    scale: Option<real>)

  const NoOverrides: PartialOptions := PartialOptions(None, None, None, None, None, None, None)

  function Pick<T>(o: Option<T>, fallback: T): (r: T)
    ensures o.Some? ==> r == o.value
    ensures o.None? ==> r == fallback
  {
    if o.Some? then o.value else fallback
  }

  /** `{ ...defaults, ...options }`: every supplied key wins, every other
      key keeps its default. */
  function Merge(base: AnimationOptions, p: PartialOptions): (r: AnimationOptions)
    ensures p.duration.Some? ==> r.duration == p.duration.value
    ensures p.duration.None? ==> r.duration == base.duration
    ensures p.delay.Some? ==> r.delay == p.delay.value
    ensures p.delay.None? ==> r.delay == base.delay
    ensures p.easing.Some? ==> r.easing == p.easing.value
    ensures p.easing.None? ==> r.easing == base.easing
    ensures p.once.Some? ==> r.once == p.once.value
    ensures p.once.None? ==> r.once == base.once
    ensures p.distance.Some? ==> r.distance == p.distance.value
    ensures p.distance.None? ==> r.distance == base.distance
    ensures p.opacity.Some? ==> r.opacity == p.opacity.value
    ensures p.opacity.None? ==> r.opacity == base.opacity
    ensures p.scale.Some? ==> r.scale == p.scale.value
    ensures p.scale.None? ==> r.scale == base.scale
  {
    AnimationOptions(Pick(p.duration, base.duration), Pick(p.delay, base.delay),
                     Pick(p.easing, base.easing), Pick(p.once, base.once),
                     Pick(p.distance, base.distance), Pick(p.opacity, base.opacity),
                     Pick(p.scale, base.scale))
  }

  /** The overrides of `q`, then those of `p` for keys `q` leaves out. */
  function Combine(p: PartialOptions, q: PartialOptions): PartialOptions
  {
    PartialOptions(
      if q.duration.Some? then q.duration else p.duration,
      if q.delay.Some? then q.delay else p.delay,
      if q.easing.Some? then q.easing else p.easing,
      if q.once.Some? then q.once else p.once,
      if q.distance.Some? then q.distance else p.distance,
      if q.opacity.Some? then q.opacity else p.opacity,
      if q.scale.Some? then q.scale else p.scale)
  }

  /** No overrides leave the defaults as they are, and merging the same
      overrides twice is merging them once. */
  lemma MergeIdentityAndIdempotent(base: AnimationOptions, p: PartialOptions)
    ensures Merge(base, NoOverrides) == base
    ensures Merge(Merge(base, p), p) == Merge(base, p)
  {
  }

  /** Two successive spreads are one spread of the combined overrides. */
  lemma MergeTwice(base: AnimationOptions, p: PartialOptions, q: PartialOptions)
    ensures Merge(Merge(base, p), q) == Merge(base, Combine(p, q))
  {
  }

  /** Overrides that supply every key make the defaults irrelevant. */
  lemma MergeFullOverride(a: AnimationOptions, b: AnimationOptions, p: PartialOptions)
    requires p.duration.Some? && p.delay.Some? && p.easing.Some? && p.once.Some?
    requires p.distance.Some? && p.opacity.Some? && p.scale.Some?
    ensures Merge(a, p) == Merge(b, p)
  {
  }

  // ------------------------------------------------------ initial transform

  /** The suffix `setInitialStyles` appends for a direction. */
  function DirectionSuffix(direction: string, distance: string): string
  {
    if direction == "up" then " translateY(" + distance + ")"
    else if direction == "down" then " translateY(-" + distance + ")"
    else if direction == "left" then " translateX(" + distance + ")"
    else if direction == "right" then " translateX(-" + distance + ")"
    else ""
  }

  predicate KnownDirection(direction: string)
  {
    direction == "up" || direction == "down" || direction == "left" || direction == "right"
  }

  /** The transform `setInitialStyles` writes: `scale(s)` and then, for the
      four known directions, the translate toward the element's resting
      place; any other direction gets the scale alone. */
  function InitialTransform(direction: string, scaleText: string, distance: string): (t: string)
    ensures "scale(" + scaleText + ")" <= t
    ensures t == "scale(" + scaleText + ")" <==> !KnownDirection(direction)
    ensures direction == "up" ==> t == ("scale(" + scaleText + ")") + (" translateY(" + distance + ")")
    ensures direction == "down" ==> t == ("scale(" + scaleText + ")") + (" translateY(-" + distance + ")")
    ensures direction == "left" ==> t == ("scale(" + scaleText + ")") + (" translateX(" + distance + ")")
    ensures direction == "right" ==> t == ("scale(" + scaleText + ")") + (" translateX(-" + distance + ")")
  {
    var base := "scale(" + scaleText + ")";
    var suffix := DirectionSuffix(direction, distance);
    assert (base + suffix)[..|base|] == base;
    assert KnownDirection(direction) ==> |suffix| > 0;
    base + suffix
  }

  /** The transform tells the four known directions apart. */
  lemma {:induction false} InitialTransformDistinguishes(a: string, b: string, scaleText: string, distance: string)
    requires KnownDirection(a) && KnownDirection(b)
    requires InitialTransform(a, scaleText, distance) == InitialTransform(b, scaleText, distance)
    ensures a == b
  {
    var base := "scale(" + scaleText + ")";
    var sa, sb := DirectionSuffix(a, distance), DirectionSuffix(b, distance);
    assert base + sa == base + sb;
    assert sa == sb by {
      assert sa == (base + sa)[|base|..];
      assert sb == (base + sb)[|base|..];
    }
    assert sa[10] == (if a == "up" || a == "down" then 'Y' else 'X');
    assert sb[10] == (if b == "up" || b == "down" then 'Y' else 'X');
    assert |sa| == |distance| + (if a == "up" || a == "left" then 13 else 14);
    assert |sb| == |distance| + (if b == "up" || b == "left" then 13 else 14);
  }

  // ------------------------------------------------------- data attributes

  /** `element.dataset.animateDirection || 'up'`: absent or empty means up. */
  function DirectionOf(attr: Option<string>): (d: string)
    ensures attr.None? || attr.value == "" ==> d == "up"
    ensures attr.Some? && attr.value != "" ==> d == attr.value
  {
    if attr.Some? && attr.value != "" then attr.value else "up"
  }

  /** JavaScript's white space and line terminators, which `parseInt`
      skips before the number. */
  predicate IsSpace(c: char)
  {
    c == '\t' || c == '\n' || c == '\U{000B}' || c == '\U{000C}' || c == '\r' || c == ' '
    || c == '\U{00A0}' || c == '\U{1680}' || ('\U{2000}' <= c <= '\U{200A}')
    || c == '\U{2028}' || c == '\U{2029}' || c == '\U{202F}' || c == '\U{205F}'
    || c == '\U{3000}' || c == '\U{FEFF}'
  }

  predicate IsDigit(c: char)
  {
    '0' <= c <= '9'
  }

  predicate AllDigits(s: string)
  {
    forall i :: 0 <= i < |s| ==> IsDigit(s[i])
  }

  function DigitValue(c: char): (d: nat)
    requires IsDigit(c)
    ensures d < 10
  {
    c as int - '0' as int
  }

  function DigitChar(d: nat): (c: char)
    requires d < 10
    ensures IsDigit(c) && DigitValue(c) == d
  {
    ('0' as int + d) as char
  }

  function TrimStart(s: string): (t: string)
    ensures |t| <= |s| && t == s[|s| - |t|..]
    ensures |t| > 0 ==> !IsSpace(t[0])
    ensures |s| > 0 && !IsSpace(s[0]) ==> t == s
  {
    if |s| > 0 && IsSpace(s[0]) then TrimStart(s[1..]) else s
  }

  /** The length of the run of digits `s` starts with. */
  function DigitRun(s: string): (n: nat)
    ensures n <= |s| && AllDigits(s[..n])
    ensures n < |s| ==> !IsDigit(s[n])
  {
    if |s| == 0 || !IsDigit(s[0]) then 0
    else
      var n := 1 + DigitRun(s[1..]);
      assert s[..n] == [s[0]] + s[1..][..n - 1];
      n
  }

  /** The value of a string of decimal digits. */
  function DigitsValue(ds: string): nat
    requires AllDigits(ds)
  {
    if |ds| == 0 then 0 else DigitsValue(ds[..|ds| - 1]) * 10 + DigitValue(ds[|ds| - 1])
  }

  /** `parseInt(s, 10)`: skip leading white space, read an optional sign and
      the longest run of digits after it; `None` is `NaN`, the result when
      there is no digit there. */
  function ParseIntBase10(s: string): (r: Option<int>)
    ensures r.None? <==> DigitRun(SignFree(TrimStart(s))) == 0
  {
    var t := TrimStart(s);
    var negative := |t| > 0 && t[0] == '-';
    var rest := SignFree(t);
    var n := DigitRun(rest);
    if n == 0 then None
    else
      var v: int := DigitsValue(rest[..n]);
      Some(if negative then -v else v)
  }

  function SignFree(t: string): string
  {
    if |t| > 0 && (t[0] == '-' || t[0] == '+') then t[1..] else t
  }

  /** Decimal digits of `n`, without leading zeros. */
  function NatToString(n: nat): (s: string)
    ensures |s| > 0 && AllDigits(s)
  {
    if n < 10 then [DigitChar(n)] else NatToString(n / 10) + [DigitChar(n % 10)]
  }

  function IntToString(i: int): (s: string)
    ensures |s| > 0
  {
    if i < 0 then "-" + NatToString(-i) else NatToString(i)
  }

  lemma {:induction false} DigitsOfNatToString(n: nat)
    ensures DigitsValue(NatToString(n)) == n
  {
    if n >= 10 {
      var s := NatToString(n);
      assert s[..|s| - 1] == NatToString(n / 10);
      DigitsOfNatToString(n / 10);
    }
  }

  lemma {:induction false} DigitRunOfDigits(ds: string, suffix: string)
    requires AllDigits(ds)
    requires |suffix| == 0 || !IsDigit(suffix[0])
    ensures DigitRun(ds + suffix) == |ds|
  {
    if |ds| > 0 {
      assert (ds + suffix)[1..] == ds[1..] + suffix;
      DigitRunOfDigits(ds[1..], suffix);
    }
  }

  /** `parseInt` of text that starts with neither white space nor a
      digit-free sign: the value of the digit run after the optional sign. */
  lemma ParseIntSettled(s: string, ds: string)
    requires |s| > 0 && !IsSpace(s[0])
    requires |ds| > 0 && AllDigits(ds)
    requires DigitRun(SignFree(s)) == |ds| && SignFree(s)[..|ds|] == ds
    ensures ParseIntBase10(s)
         == Some(if s[0] == '-' then -(DigitsValue(ds) as int) else DigitsValue(ds) as int)
  {
    assert TrimStart(s) == s;
  }

  /** `parseInt` reads back the decimal text of every integer, also when
      text that does not start with a digit follows it (so "250ms" is
      250). */
  lemma {:induction false} ParseIntReadsIntToString(i: int, suffix: string)
    requires |suffix| == 0 || !IsDigit(suffix[0])
    ensures ParseIntBase10(IntToString(i) + suffix) == Some(i)
  {
    var m: nat := if i < 0 then -i else i;
    var digits := NatToString(m);
    var body := digits + suffix;
    DigitsOfNatToString(m);
    DigitRunOfDigits(digits, suffix);
    assert body[..|digits|] == digits;
    var s := IntToString(i) + suffix;
    if i < 0 {
      assert IntToString(i) == "-" + digits;
      assert s == "-" + body;
      assert s[1..] == body;
      assert SignFree(s) == body;
    } else {
      assert IntToString(i) == digits;
      assert IsDigit(s[0]);
      assert SignFree(s) == body;
    }
    ParseIntSettled(s, digits);
  }

  /** Text without any digit parses to `NaN`. */
  lemma ParseIntNoDigits(s: string)
    requires forall i :: 0 <= i < |s| ==> !IsDigit(s[i])
    ensures ParseIntBase10(s).None?
  {
    var t := TrimStart(s);
    var rest := SignFree(t);
    if |rest| > 0 {
      assert rest == s[|s| - |rest|..];
      assert !IsDigit(s[|s| - |rest|]);
    }
  }

  /** The delay for one element: the parse of `data-animate-delay` when it
      is present and not empty, else the option; `None` is `NaN`. */
  function DelayOf(attr: Option<string>, fallback: real): (d: Option<real>)
    ensures attr.None? || attr.value == "" ==> d == Some(fallback)
    ensures attr.Some? && attr.value != "" ==>
      d == (if ParseIntBase10(attr.value).Some? then Some(ParseIntBase10(attr.value).value as real) else None)
  {
    if attr.Some? && attr.value != "" then
      var parsed := ParseIntBase10(attr.value);
      if parsed.Some? then Some(parsed.value as real) else None
    else Some(fallback)
  }

  /** An attribute holding an integer's decimal text gives that delay. */
  lemma DelayOfIntegerText(i: int, fallback: real)
    ensures DelayOf(Some(IntToString(i)), fallback) == Some(i as real)
  {
    ParseIntReadsIntToString(i, "");
    assert IntToString(i) + "" == IntToString(i);
  }

  // -------------------------------------------------------------- styling

  /** The value `animateElement` writes to `style.transition`; a `NaN`
      delay prints as `NaN`. */
  function TransitionText(opts: AnimationOptions, delay: Option<real>, show: real -> string): string
  {
    var timing := show(opts.duration) + "ms " + opts.easing + " "
                  + (if delay.Some? then show(delay.value) else "NaN") + "ms";
    "opacity " + timing + ", transform " + timing
  }

  /** When the `will-change` reset fires: `duration + delay + 100` ms, where
      a timer cannot fire before 0 ms and a `NaN` delay means 0. */
  function ResetDelay(duration: real, delay: Option<real>): (t: real)
    ensures t >= 0.0
    ensures delay.Some? && duration + delay.value + 100.0 >= 0.0 ==> t == duration + delay.value + 100.0
    ensures delay.None? ==> t == 0.0
  {
    if delay.Some? && duration + delay.value + 100.0 >= 0.0 then duration + delay.value + 100.0 else 0.0
  }

  const FinalOpacity: string := "1"
  const FinalTransform: string := "scale(1) translate(0, 0)"

  /** A page element that `initSmoothReveal` selected. */
  class Element {
    var opacity: string
    var transform: string
    var transition: string
    var willChange: string
    var classes: set<string>
    /** `data-animate-direction` and `data-animate-delay`. */
    const animateDirection: Option<string>
    const animateDelay: Option<string>

    constructor (classes: set<string>, animateDirection: Option<string>, animateDelay: Option<string>)
      ensures this.classes == classes && this.animateDirection == animateDirection
      ensures this.animateDelay == animateDelay
      ensures opacity == "" && transform == "" && transition == "" && willChange == ""
    {
      this.classes := classes;
      this.animateDirection := animateDirection;
      this.animateDelay := animateDelay;
      opacity, transform, transition, willChange := "", "", "", "";
    }
  }

  /** The styles `setInitialStyles` leaves on `e`. */
  predicate InitiallyStyled(e: Element, opts: AnimationOptions, show: real -> string)
    reads e
  {
    && e.opacity == show(opts.opacity)
    && e.transform == InitialTransform(DirectionOf(e.animateDirection), show(opts.scale), opts.distance)
    && e.transition == "none"
    && e.willChange == "opacity, transform"
  }

  /** The styles `animateElement` leaves on `e`. */
  predicate Revealed(e: Element, opts: AnimationOptions, show: real -> string)
    reads e
  {
    && e.opacity == FinalOpacity
    && e.transform == FinalTransform
    && e.transition == TransitionText(opts, DelayOf(e.animateDelay, opts.delay), show)
    && HasAnimated in e.classes
  }

  method SetInitialStyles(e: Element, direction: string, opts: AnimationOptions, show: real -> string)
    modifies e`opacity, e`transform, e`transition, e`willChange
    ensures e.opacity == show(opts.opacity)
    ensures e.transform == InitialTransform(direction, show(opts.scale), opts.distance)
    ensures e.transition == "none" && e.willChange == "opacity, transform"
  {
    e.opacity := show(opts.opacity);
    var transform := "scale(" + show(opts.scale) + ")";
    if direction == "up" {
      transform := transform + (" translateY(" + opts.distance + ")");
    } else if direction == "down" {
      transform := transform + (" translateY(-" + opts.distance + ")");
    } else if direction == "left" {
      transform := transform + (" translateX(" + opts.distance + ")");
    } else if direction == "right" {
      transform := transform + (" translateX(-" + opts.distance + ")");
    }
    e.transform := transform;
    e.transition := "none";
    e.willChange := "opacity, transform";
  }

  /** `animateElement` with the element's resolved delay; returns when the
      `will-change` reset is due. */
  method AnimateElement(e: Element, opts: AnimationOptions, delay: Option<real>, show: real -> string)
    returns (resetAfter: real)
    modifies e`opacity, e`transform, e`transition, e`classes
    ensures e.transition == TransitionText(opts, delay, show)
    ensures e.opacity == FinalOpacity && e.transform == FinalTransform
    ensures e.classes == old(e.classes) + {HasAnimated}
    ensures resetAfter == ResetDelay(opts.duration, delay)
  {
    e.transition := TransitionText(opts, delay, show);
    e.opacity := FinalOpacity;
    e.transform := FinalTransform;
    e.classes := e.classes + {HasAnimated};
    resetAfter := ResetDelay(opts.duration, delay);
  }

  /** The `will-change` reset timer of `animateElement`. */
  method ResetWillChange(e: Element)
    modifies e`willChange
    ensures e.willChange == "auto"
  {
    e.willChange := "auto";
  }

  /** One intersection entry delivered to the observer's callback. */
  datatype Entry = Entry(target: Element, isIntersecting: bool)

  function Targets(entries: seq<Entry>): set<Element>
  {
    set k | 0 <= k < |entries| :: entries[k].target
  }

  /** Whether some entry reports `e` as intersecting. */
  predicate IntersectsIn(e: Element, entries: seq<Entry>)
  {
    exists k :: 0 <= k < |entries| && entries[k].target == e && entries[k].isIntersecting
  }

  lemma IntersectsInSnoc(e: Element, entries: seq<Entry>, entry: Entry)
    ensures IntersectsIn(e, entries + [entry]) <==>
      IntersectsIn(e, entries) || (entry.target == e && entry.isIntersecting)
  {
    var all := entries + [entry];
    if IntersectsIn(e, entries) {
      var k :| 0 <= k < |entries| && entries[k].target == e && entries[k].isIntersecting;
      assert all[k] == entries[k];
    }
    if IntersectsIn(e, all) {
      var k :| 0 <= k < |all| && all[k].target == e && all[k].isIntersecting;
      if k < |entries| {
        assert all[k] == entries[k];
      }
    }
    if entry.target == e && entry.isIntersecting {
      assert all[|entries|] == entry;
    }
  }

  /** The `will-change` resets a batch of entries leaves pending, in entry
      order: one per intersecting entry, due at its target's reset time. */
  function PendingResets(entries: seq<Entry>, duration: real, fallback: real): seq<(Element, real)>
  {
    if entries == [] then []
    else
      var last := entries[|entries| - 1];
      PendingResets(entries[..|entries| - 1], duration, fallback)
        + (if last.isIntersecting
           then [(last.target, ResetDelay(duration, DelayOf(last.target.animateDelay, fallback)))]
           else [])
  }

  /** The targets some entry reports as intersecting. */
  function Hits(entries: seq<Entry>): set<Element>
  {
    if entries == [] then {}
    else
      var last := entries[|entries| - 1];
      Hits(entries[..|entries| - 1]) + (if last.isIntersecting then {last.target} else {})
  }

  lemma HitsStep(entries: seq<Entry>, i: nat)
    requires i < |entries|
    ensures Hits(entries[..i + 1]) == Hits(entries[..i]) + (if entries[i].isIntersecting then {entries[i].target} else {})
  {
    assert entries[..i + 1][..i] == entries[..i];
  }

  lemma {:induction false} HitsIntersect(entries: seq<Entry>)
    ensures forall e :: e in Hits(entries) <==> IntersectsIn(e, entries)
  {
    if entries != [] {
      var init, last := entries[..|entries| - 1], entries[|entries| - 1];
      assert entries == init + [last];
      HitsIntersect(init);
      forall e | true
        ensures IntersectsIn(e, entries) <==> IntersectsIn(e, init) || (last.target == e && last.isIntersecting)
      {
        IntersectsInSnoc(e, init, last);
      }
    }
  }

  /** One more entry appends at most its own reset. */
  lemma PendingResetsStep(entries: seq<Entry>, i: nat, duration: real, fallback: real)
    requires i < |entries|
    ensures PendingResets(entries[..i + 1], duration, fallback)
         == PendingResets(entries[..i], duration, fallback)
            + (if entries[i].isIntersecting
               then [(entries[i].target, ResetDelay(duration, DelayOf(entries[i].target.animateDelay, fallback)))]
               else [])
  {
    assert entries[..i + 1][..i] == entries[..i];
  }

  /** Every pending reset belongs to an intersecting target and is due at
      that target's reset time. */
  lemma {:induction false} PendingResetsSound(entries: seq<Entry>, duration: real, fallback: real)
    ensures forall r :: r in PendingResets(entries, duration, fallback) ==>
      IntersectsIn(r.0, entries) && r.1 == ResetDelay(duration, DelayOf(r.0.animateDelay, fallback))
  {
    if entries != [] {
      var init, last := entries[..|entries| - 1], entries[|entries| - 1];
      assert entries == init + [last];
      PendingResetsSound(init, duration, fallback);
      forall e | true
        ensures IntersectsIn(e, entries) <==> IntersectsIn(e, init) || (last.target == e && last.isIntersecting)
      {
        IntersectsInSnoc(e, init, last);
      }
    }
  }

  /** Every intersecting entry leaves its target's reset pending. */
  lemma {:induction false} PendingResetsComplete(entries: seq<Entry>, duration: real, fallback: real)
    ensures forall k :: 0 <= k < |entries| && entries[k].isIntersecting ==>
      (entries[k].target, ResetDelay(duration, DelayOf(entries[k].target.animateDelay, fallback)))
        in PendingResets(entries, duration, fallback)
  {
    if entries != [] {
      var init := entries[..|entries| - 1];
      PendingResetsComplete(init, duration, fallback);
      assert forall k :: 0 <= k < |init| ==> entries[k] == init[k];
    }
  }

  /** The observer `initSmoothReveal` creates, with the merged options and
      the load-time phone flag its callback reads. */
  class RevealObserver {
    var observed: set<Element>
    const options: AnimationOptions
    const mobile: bool
    /** The observer options it is created with. */
    const threshold: real
    const rootMargin: string

    constructor (options: AnimationOptions, mobile: bool)
      ensures observed == {} && this.options == options && this.mobile == mobile
      ensures threshold == ObserverThreshold && rootMargin == ObserverRootMargin
    {
      observed := {};
      this.options := options;
      this.mobile := mobile;
      threshold := ObserverThreshold;
      rootMargin := ObserverRootMargin;
    }

    method Observe(e: Element)
      modifies this`observed
      ensures observed == old(observed) + {e}
    {
      observed := observed + {e};
    }

    method Unobserve(e: Element)
      modifies this`observed
      ensures observed == old(observed) - {e}
    {
      observed := observed - {e};
    }

    /** The callback's work on one entry: nothing while the page scrolls fast
        on a phone or when the entry does not intersect; otherwise reveal the
        target with its own delay and, with `once`, stop observing it.
        Returns the pending `will-change` reset, if any. */
    method OnEntry(entry: Entry, fastScrolling: bool, show: real -> string)
      returns (reset: Option<real>)
      modifies this`observed, entry.target
      ensures (fastScrolling && mobile) || !entry.isIntersecting ==>
        reset.None? && observed == old(observed) && unchanged(entry.target)
      ensures !(fastScrolling && mobile) && entry.isIntersecting ==>
        && Revealed(entry.target, options, show)
        && entry.target.classes == old(entry.target.classes) + {HasAnimated}
        && entry.target.willChange == old(entry.target.willChange)
        && observed == (if options.once then old(observed) - {entry.target} else old(observed))
        && reset == Some(ResetDelay(options.duration, DelayOf(entry.target.animateDelay, options.delay)))
    {
      if fastScrolling && mobile {
        return None;
      }
      if entry.isIntersecting {
        var e := entry.target;
        var delay := DelayOf(e.animateDelay, options.delay);
        var resetAfter := AnimateElement(e, options, delay, show);
        reset := Some(resetAfter);
        if options.once {
          Unobserve(e);
        }
      } else {
        reset := None;
      }
    }

    /** The observer callback's loop over a batch, stated with the targets
        the batch reports as intersecting (`Hits`) and the resets it leaves
        pending (`PendingResets`). */
    method DeliverEntries(entries: seq<Entry>, fastScrolling: bool, show: real -> string)
      returns (resets: seq<(Element, real)>)
      modifies this`observed, Targets(entries)
      ensures fastScrolling && mobile ==>
        resets == [] && observed == old(observed)
        && forall k :: 0 <= k < |entries| ==> unchanged(entries[k].target)
      ensures !(fastScrolling && mobile) ==>
        && (forall e :: e in observed <==> e in old(observed) && !(options.once && e in Hits(entries)))
        && (forall k :: 0 <= k < |entries| && entries[k].target in Hits(entries) ==>
              Revealed(entries[k].target, options, show)
              && entries[k].target.classes == old(entries[k].target.classes) + {HasAnimated}
              && entries[k].target.willChange == old(entries[k].target.willChange))
        && (forall k :: 0 <= k < |entries| && entries[k].target !in Hits(entries) ==>
              unchanged(entries[k].target))
      ensures !(fastScrolling && mobile) ==> resets == PendingResets(entries, options.duration, options.delay)

    {
      resets := [];
      var i := 0;
      while i < |entries|
        invariant 0 <= i <= |entries|
        invariant fastScrolling && mobile ==>
          resets == [] && observed == old(observed)
          && forall k :: 0 <= k < |entries| ==> unchanged(entries[k].target)
        invariant !(fastScrolling && mobile) ==>
          && (forall e :: e in observed <==> e in old(observed) && !(options.once && e in Hits(entries[..i])))
          && (forall k :: 0 <= k < |entries| && entries[k].target in Hits(entries[..i]) ==>
                Revealed(entries[k].target, options, show)
                && entries[k].target.classes == old(entries[k].target.classes) + {HasAnimated}
                && entries[k].target.willChange == old(entries[k].target.willChange))
          && (forall k :: 0 <= k < |entries| && entries[k].target !in Hits(entries[..i]) ==>
                unchanged(entries[k].target))
        invariant !(fastScrolling && mobile) ==> resets == PendingResets(entries[..i], options.duration, options.delay)
      {
        var entry := entries[i];
        HitsStep(entries, i);
        var reset := OnEntry(entry, fastScrolling, show);
        if reset.Some? {
          resets := resets + [(entry.target, reset.value)];
        }
        PendingResetsStep(entries, i, options.duration, options.delay);
        i := i + 1;
      }
      assert entries[..i] == entries;
    }

    /** The observer callback on a batch of entries. While the page scrolls
        fast on a phone every entry is ignored; otherwise each intersecting
        target is revealed (and, with `once`, no longer observed) and every
        other target is left as it was. Returns the pending `will-change`
        resets. */
    method OnEntries(entries: seq<Entry>, fastScrolling: bool, show: real -> string)
      returns (resets: seq<(Element, real)>)
      modifies this`observed, Targets(entries)
      ensures fastScrolling && mobile ==>
        resets == [] && observed == old(observed)
        && forall k :: 0 <= k < |entries| ==> unchanged(entries[k].target)
      ensures !(fastScrolling && mobile) ==>
        && (forall e :: e in observed <==> e in old(observed) && !(options.once && IntersectsIn(e, entries)))
        && (forall k :: 0 <= k < |entries| && IntersectsIn(entries[k].target, entries) ==>
              Revealed(entries[k].target, options, show)
              && entries[k].target.classes == old(entries[k].target.classes) + {HasAnimated}
              && entries[k].target.willChange == old(entries[k].target.willChange))
        && (forall k :: 0 <= k < |entries| && !IntersectsIn(entries[k].target, entries) ==>
              unchanged(entries[k].target))
      ensures !(fastScrolling && mobile) ==> resets == PendingResets(entries, options.duration, options.delay)
      ensures forall r :: r in resets ==>
        IntersectsIn(r.0, entries)
        && r.1 == ResetDelay(options.duration, DelayOf(r.0.animateDelay, options.delay))
      ensures !(fastScrolling && mobile) ==>
        forall k :: 0 <= k < |entries| && entries[k].isIntersecting ==>
          (entries[k].target, ResetDelay(options.duration, DelayOf(entries[k].target.animateDelay, options.delay)))
            in resets
    {
      resets := DeliverEntries(entries, fastScrolling, show);
      HitsIntersect(entries);
      PendingResetsSound(entries, options.duration, options.delay);
      PendingResetsComplete(entries, options.duration, options.delay);
    }
  }

  /** `initSmoothReveal(selector, options)` on the elements the selector
      matched: merge the options; with no element there is no observer;
      otherwise every element not yet carrying `has-animated` gets its
      initial styles and is observed, and the others are left alone. */
  method InitSmoothReveal(elements: seq<Element>, overrides: PartialOptions, mobile: bool,
                          show: real -> string)
    returns (observer: RevealObserver?)
    modifies set e | e in elements
    ensures |elements| == 0 ==> observer == null
    ensures |elements| > 0 ==>
      && observer != null && fresh(observer) && observer.mobile == mobile
      && observer.options == Merge(DefaultAnimationOptions(mobile), overrides)
      && observer.observed == set e | e in elements && HasAnimated !in old(e.classes)
      && observer.threshold == ObserverThreshold && observer.rootMargin == ObserverRootMargin
    ensures forall e :: e in elements ==> e.classes == old(e.classes)
    ensures forall e :: e in elements && HasAnimated in e.classes ==> unchanged(e)
    ensures forall e :: e in elements && HasAnimated !in e.classes ==>
      InitiallyStyled(e, Merge(DefaultAnimationOptions(mobile), overrides), show)
  {
    var opts := Merge(DefaultAnimationOptions(mobile), overrides);
    if |elements| == 0 {
      return null;
    }
    observer := new RevealObserver(opts, mobile);
    var i := 0;
    while i < |elements|
      invariant 0 <= i <= |elements|
      invariant fresh(observer) && observer.options == opts && observer.mobile == mobile
      invariant observer.observed == set e | e in elements[..i] && HasAnimated !in old(e.classes)
      invariant forall e :: e in elements ==> e.classes == old(e.classes)
      invariant forall e :: e in elements[..i] && HasAnimated !in e.classes ==> InitiallyStyled(e, opts, show)
      invariant forall e :: e in elements && e !in elements[..i] ==> unchanged(e)
      invariant forall e :: e in elements && HasAnimated in e.classes ==> unchanged(e)
    {
      var e := elements[i];
      assert elements[..i + 1] == elements[..i] + [e];
      var direction := DirectionOf(e.animateDirection);
      if HasAnimated !in e.classes {
        SetInitialStyles(e, direction, opts, show);
        observer.Observe(e);
      }
      i := i + 1;
    }
    assert elements[..i] == elements;
  }
}
