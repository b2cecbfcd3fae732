# Portfolio site motion core, in Dafny

This project models the three pieces of behaviour in a Next.js portfolio site
that are more than markup, and proves properties of them:

- **The falling-petal background** (`components/sakura-animation.tsx`).
  - A viewport-area tier table picks how many petals to seed and the most the field may hold.
  - `createPetal` draws each petal's attributes from `Math.random()` and stamps it with a counter.
  - Each animation frame moves every petal and drops those that left the region. The moving and the region depend on whether the page is scrolling.
  - A spawn timer appends a small batch spread across the width and keeps only the newest petals up to the cap.
  - On phones a throttle skips frames that come too soon.
  - The render side filters petals to a band, caps the drawn list while scrolling fast, and dims the container.
- **The scroll controller** (`utils/smoothScroll.ts`).
  - Module-level variables track the scroll speed, whether a programmatic scroll is running and where the user last left the page.
  - A scroll listener samples the speed and toggles the `is-fast-scrolling` class.
  - A cleanup timer undoes unexplained jumps.
  - `smoothScrollTo` jumps, runs an eased desktop animation, or runs a stepped phone animation.
  - `finishScroll` hands control back and restores a drifted position.
- **The reveal helper** (`utils/smoothReveal.ts`).
  - It merges animation options and builds each element's initial transform from its direction.
  - It reads direction and delay from data attributes.
  - It reveals each element once as it enters the viewport.

The modules follow the source files:

| file | module | models |
|---|---|---|
| `wrappers.dfy` | `Wrappers` | `Option`, `Min` |
| `scroll_speed.dfy` | `Speed` | the px-per-100-ms speed sample both scroll listeners take |
| `petals.dfy` | `Petals` | the petal record and every pure computation of the petal component |
| `petal_field.dfy` | `PetalField` | class `Field`: the petal list, id counter and refs, with `Start`, `Mount`, `Tick`, `Spawn`, `Resize`, `DetectScrollSpeed` |
| `smooth_scroll.dfy` | `SmoothScroll` | the controller state record and its transition functions; the easing curves and step plan; classes `Controller`, `DesktopScroll` and `SteppedScroll` |
| `smooth_reveal.dfy` | `SmoothReveal` | options and merge, transform text, `parseInt`, data-attribute defaults; classes `Element` and `RevealObserver` and the styling methods |

How the environment is modelled:

- **Randomness.** Every `Math.random()` draw is a parameter in [0, 1). `PetalDraws` holds a petal's fourteen draws in the order `createPetal` makes them.
- **Trigonometry.** `Math.sin` is the function parameter `wave`. Only the lemmas that need it assume |sin| ≤ 1.
- **Time and timers.** `performance.now()` and frame timestamps are parameters. Each frame, timer or listener callback is one method call the caller makes. Stopping or cancelling means making no further calls.
- **The page.** Its scroll offset, root classes, body pointer events and the elements' `style` and `classList` are fields the methods update. JavaScript's number-to-text conversion is the function parameter `show`.

## Model

| member | source | states |
|---|---|---|
| Speed.SpeedPer100ms | utils/smoothScroll.ts:296-297 | the sample is non-negative and zero exactly when the page did not move |
| Speed.SpeedMonotone | utils/smoothScroll.ts:296-297 | moving further in the same time never gives a smaller sample |
| Speed.SpeedSymmetric | utils/smoothScroll.ts:296 | the sample does not depend on the scroll direction |
| Petals.MountViewport | components/sakura-animation.tsx:28-31 | the window's size, or 1920×1080 without a window |
| Petals.OptimalPetalCount | components/sakura-animation.tsx:47-53 | area < 500000 exactly gives (25,60); 500000 ≤ area < 1000000 exactly gives (35,90); larger areas exactly give (45,120); initial < max in every tier |
| Petals.OptimalPetalCountMonotone | components/sakura-animation.tsx:47-53 | a larger viewport never gets a smaller initial count or cap |
| Petals.Across | components/sakura-animation.tsx:88 | `random * width` lies in [0, width), and is 0 when the width is 0 |
| Petals.RandomIndex | components/sakura-animation.tsx:95-97 | `floor(random * n)` lies in 0..n-1 |
| Petals.SizeRatio | components/sakura-animation.tsx:70 | the size ratio lies in (0, 1] |
| Petals.RotationDirection | components/sakura-animation.tsx:78 | the direction is 1 or -1 |
| Petals.Spin | components/sakura-animation.tsx:77-92 | the spin is never zero and is positive exactly when the direction is 1 |
| Petals.FallSpeed | components/sakura-animation.tsx:73-93 | the initial fall speed is positive |
| Petals.PetalFromDraws | components/sakura-animation.tsx:56-101 | the petal carries the given id; y ∈ (-550,-50]; x ∈ [0,width); direction ±1; zIndex 0..9; imageIndex 0..4; opacity, acceleration, drift and rotation within their draw ranges; speed > 0; the spin's sign matches the direction; scale and size within the phone or desktop ranges |
| Petals.Batch | components/sakura-animation.tsx:257-260 | the initial batch has one petal per draw, the k-th made with id startId + k |
| Petals.BatchIds | components/sakura-animation.tsx:57 | a batch's ids strictly increase, start at startId and stay below startId + n |
| Petals.IdsIncreasingAppend | components/sakura-animation.tsx:297 | appending petals whose ids are all above the old ones keeps ids strictly increasing |
| Petals.Fall | components/sakura-animation.tsx:183-206 | without scrolling: speed' = speed + acceleration; y' = y + speed'; x' = x + 0.8·drift + 1.96·sin(y/200); every field but x, y, rotation and speed is unchanged |
| Petals.Drift | components/sakura-animation.tsx:158-176 | while scrolling: speed unchanged; y' = y + speed + 0.8·delta; x' = x + 0.3·drift; rotation' = rotation + 0.1·spin; every other field unchanged |
| Petals.AdvancePetal | components/sakura-animation.tsx:156-223 | without scrolling a petal is dropped exactly when y' > h+1500, x' < -100 or x' > w+100; while scrolling exactly when y' > h+800; a survivor is the moved petal and lies inside the region |
| Petals.SwayBounded | components/sakura-animation.tsx:191-192 | with \|sin\| ≤ 1 the sway moves a petal at most 1.96 px off its drift |
| Petals.AdvanceAll | components/sakura-animation.tsx:155-224 | the result is no longer than the input and every petal in it lies inside the region |
| Petals.AdvanceAllSurvivors | components/sakura-animation.tsx:155-224 | every petal left after a frame is some input petal's outcome, and every input petal that survives is kept |
| Petals.AdvanceAllConcat | components/sakura-animation.tsx:155-224 | the advance distributes over concatenation, so survivors keep input order |
| Petals.AdvanceAllSingle | components/sakura-animation.tsx:155-224 | a one-petal list advances to that petal's outcome |
| Petals.AdvanceAllIds | components/sakura-animation.tsx:155-224 | the advance keeps ids strictly increasing and within their old bounds |
| Petals.FallFramesSteady | components/sakura-animation.tsx:185-214 | without acceleration, drift or sway, a petal falls exactly 2 px per frame while it stays above the removal line |
| Petals.EvictionScenario | components/sakura-animation.tsx:210-214 | a petal from y = -50 at speed 2 in an 800 px viewport survives frame 1175 and is dropped on frame 1176 |
| Petals.BatchCount | components/sakura-animation.tsx:277-279 | 1 petal when scrolling on a phone, 2 on a phone otherwise, and on a desktop 3 exactly when the draw < 0.5 and 4 exactly when it is ≥ 0.5 |
| Petals.SpawnPetal | components/sakura-animation.tsx:282-293 | the i-th of count new petals has x ∈ [i·w/count, (i+1)·w/count) and y ∈ (-850,-50]; every other field is as `createPetal` made it |
| Petals.SpawnBatch | components/sakura-animation.tsx:282-294 | a spawn batch has count petals, the k-th being `SpawnPetal` of id startId + k |
| Petals.SpawnBatchIds | components/sakura-animation.tsx:284 | a spawn batch's ids strictly increase from startId and stay below startId + count |
| Petals.SliceFromEnd | components/sakura-animation.tsx:297 | `slice(-n)` is the last min(len, n) elements, and the whole list when n is 0 |
| Petals.FrameInterval | components/sakura-animation.tsx:125-140 | the interval is 50 exactly when scrolling fast on a phone, 33 exactly when scrolling otherwise, and 16 exactly when not scrolling |
| Petals.ThrottleRecovers | components/sakura-animation.tsx:134-145 | once scrolling stops, a frame is due after 16 ms whatever the last speed sample |
| Petals.ThrottleMonotone | components/sakura-animation.tsx:140-142 | a frame due in a degraded tier is due in the lighter one |
| Petals.ContainerStyleFor | components/sakura-animation.tsx:318-332 | opacity is 0.2, 0.6 or 1 and never 0; it is 0.2 exactly when scrolling fast on a phone and below 1 exactly when scrolling on a phone; visibility is always visible |
| Petals.RenderPetal | components/sakura-animation.tsx:335-350 | a sprite is produced exactly when the petal is in the band; it keeps id and position, and its opacity is 0.7× while scrolling on a phone |
| Petals.RenderAll | components/sakura-animation.tsx:449-451 | at most one sprite per petal, each some petal's sprite; with every petal in the band, exactly the petals' sprites in order |
| Petals.RenderAllKeeps | components/sakura-animation.tsx:335-451 | every petal inside the render band is drawn, whichever other petals fall outside it |
| Petals.RenderAllConcat | components/sakura-animation.tsx:449-451 | rendering a list is rendering its two parts one after the other, so sprites keep the petals' order |
| Petals.VisiblePetals | components/sakura-animation.tsx:434-452 | when scrolling with speed > 30 only the first min(n,40) petals are rendered, otherwise all |
| Petals.VisibleWhenIdle | components/sakura-animation.tsx:447-451 | without scrolling every live petal is drawn, in list order |
| Petals.FastScrollNeverEmpties | components/sakura-animation.tsx:439-445 | while scrolling fast, with the first petals in the band, exactly min(n,40) sprites are drawn |
| Petals.BatchEstablishes | components/sakura-animation.tsx:253-261 | the seeded batch satisfies the field invariant of cap, increasing ids below the counter and y ≤ h+1500 |
| Petals.AdvancePreserves | components/sakura-animation.tsx:150-225 | a frame keeps the field invariant |
| Petals.SpawnPreserves | components/sakura-animation.tsx:271-298 | a spawn tick, trimmed to the cap, keeps the field invariant with the counter moved on |
| PetalField.Field.constructor | components/sakura-animation.tsx:26-35 | the mounted component has an empty list, counter 0, the tier's cap and the window or fallback size |
| PetalField.Field.CreatePetal | components/sakura-animation.tsx:56-57 | the new petal carries the counter's old value, then the counter goes up by one |
| PetalField.Field.Start | components/sakura-animation.tsx:253-264 | one run of the mount effect (a mount performs two, see `Field.Mount`): the list becomes the tier's initial batch; the counter moves on by its size; the invariant holds |
| PetalField.Field.Resize | components/sakura-animation.tsx:231-250 | a resize event, including the mount-time one and one that keeps the size, re-runs the mount effect: the list is re-seeded for the tier of the stored size and the counter carries on |
| PetalField.Field.Mount | components/sakura-animation.tsx:231-315 | a mount is the mount effect followed by the mount-time resize: the visible petals are the second batch, with ids from `initial` upward, and the counter moves on by twice the initial count |
| PetalField.Field.SetScrolling | components/sakura-animation.tsx:115-117 | the ref takes the prop's value |
| PetalField.Field.DetectScrollSpeed | components/sakura-animation.tsx:411-424 | the speed is resampled only when time moved on; the listener's offset and time move to the current ones |
| PetalField.Field.Tick | components/sakura-animation.tsx:120-226 | the frame is drawn exactly when `FrameDue` says so, always on a desktop; a drawn frame replaces the list by `AdvanceAll`, a skipped one leaves list and time alone; the scroll offset is recorded either way; the invariant holds |
| PetalField.Field.Throttle | components/sakura-animation.tsx:129-146 | the scroll delta is taken against the last frame's offset, which becomes the current one; the frame is drawn exactly when `FrameDue` says so, always on a desktop, and a phone stamps the time of a drawn frame |
| PetalField.Field.ApplyAdvance | components/sakura-animation.tsx:150-225 | the list becomes `AdvanceAll` of the old one and the invariant holds |
| PetalField.Field.Spawn | components/sakura-animation.tsx:267-298 | the list becomes the last `max` of old ++ batch; the counter moves on by the batch count; the invariant holds |
| PetalField.Field.CreateBatch | components/sakura-animation.tsx:282-294 | the loop builds exactly `SpawnBatch` and moves the counter on by count |
| SmoothScroll.OnScrollEvent | utils/smoothScroll.ts:259-314 | during a programmatic scroll only lastScrollY and lastScrollTime change; a user scroll records position and time and sets the user flag; speed is recomputed only when lastScrollTime > 0 and Δt > 0, and then the fast class is on exactly when speed > threshold |
| SmoothScroll.UserScrollEnded | utils/smoothScroll.ts:283-285 | the user flag clears and nothing else changes |
| SmoothScroll.SpeedThreshold | utils/smoothScroll.ts:301-302 | the fast-scrolling threshold is 50 px per 100 ms exactly on a phone and 30 otherwise |
| SmoothScroll.CleanupFires | utils/smoothScroll.ts:323-351 | the position changes exactly when the user is idle, no programmatic scroll runs, < 1000 ms passed and drift > 100, and then it returns to lastUserScrollPosition; classes and speed clear unless a programmatic scroll runs; every other field, the last offset, its time and the user-scroll timestamp among them, is kept |
| SmoothScroll.FinishScroll | utils/smoothScroll.ts:179-183 | the current offset becomes the expected position, stamped with the current time |
| SmoothScroll.FinishSettle | utils/smoothScroll.ts:189-196 | programmatic flag false, speed 0, classes off, interactions on, the callback run once; every other field, the position, the user flag, the last offset and both timestamps among them, is kept |
| SmoothScroll.FinishRestore | utils/smoothScroll.ts:199-209 | the position changes exactly when drift > 50; afterwards drift is ≤ 50 |
| SmoothScroll.FinishThenRestoreStays | utils/smoothScroll.ts:179-211 | with no movement in between, `finishScroll`'s timers leave the position where it ended |
| SmoothScroll.EaseInOutQuadEnds | utils/smoothScroll.ts:57-59 | e(0) = 0, e(1) = 1 and e(0.5) = 0.5, where the two branches meet |
| SmoothScroll.EaseInOutQuadBounded | utils/smoothScroll.ts:57-59 | 0 ≤ e(t) ≤ 1 on [0,1] |
| SmoothScroll.EaseInOutQuadMonotone | utils/smoothScroll.ts:57-59 | e never decreases on [0,1] |
| SmoothScroll.EaseOutQuintEnds | utils/smoothScroll.ts:126-128 | the phone curve gives 0 at 0 and 1 at 1 |
| SmoothScroll.EaseOutQuintMonotone | utils/smoothScroll.ts:126-128 | the phone curve never decreases and stays in [0,1] on [0,1] |
| SmoothScroll.Progress | utils/smoothScroll.ts:64 | progress ≤ 1; for a positive duration it is ≥ 0 from the first frame on, 1 once the duration has elapsed and below 1 before |
| SmoothScroll.DesktopDoneIff | utils/smoothScroll.ts:72 | the desktop animation ends exactly when the elapsed time reaches the duration |
| SmoothScroll.DesktopFrameBetween | utils/smoothScroll.ts:64-70 | every frame's offset lies between the start and the target |
| SmoothScroll.Round | utils/smoothScroll.ts:146 | `Math.round` is the integer within (x-½, x+½] |
| SmoothScroll.RoundInteger | utils/smoothScroll.ts:146 | rounding a whole number gives it back |
| SmoothScroll.RoundMonotone | utils/smoothScroll.ts:146 | rounding keeps order |
| SmoothScroll.StepCount | utils/smoothScroll.ts:120 | steps ≤ 6; 6 from 240 ms up; at least 1 from 40 ms up; 0 for durations in [0, 40); below the cap, n is the number of whole 40 ms slices: 40·n ≤ duration < 40·(n+1) |
| SmoothScroll.StepPositionMonotone | utils/smoothScroll.ts:140-146 | successive steps move monotonically toward the target and never pass it, in either direction |
| SmoothScroll.LastStepOnTarget | utils/smoothScroll.ts:140-157 | the eased position of the last step is the target when the target is a whole pixel |
| SmoothScroll.SteppedRun | utils/smoothScroll.ts:130-159 | an uninterrupted stepped scroll visits max(steps,1) positions, ending exactly at the target |
| SmoothScroll.SteppedScroll.RunSteps | utils/smoothScroll.ts:130-159 | k uninterrupted `doStep` calls leave the page at the k-th position of `SteppedRun`, and the scroll is finished exactly after the last one |
| SmoothScroll.SteppedRunMonotone | utils/smoothScroll.ts:130-159 | scrolling down to a whole-pixel target, an uninterrupted stepped scroll never moves back and never passes the target |
| SmoothScroll.Controller.constructor | utils/smoothScroll.ts:7-17 | every module variable starts at 0/false; the anchor duration is 300 on a phone and 600 on a desktop |
| SmoothScroll.Controller.OnScroll | utils/smoothScroll.ts:259-314 | the state becomes `OnScrollEvent` of the old state |
| SmoothScroll.Controller.OnUserScrollTimeout | utils/smoothScroll.ts:283-285 | the state becomes `UserScrollEnded` of the old state |
| SmoothScroll.Controller.OnCleanupTimeout | utils/smoothScroll.ts:323-351 | the state becomes `CleanupFires` of the old state |
| SmoothScroll.Controller.Finish | utils/smoothScroll.ts:179-183 | the state becomes `FinishScroll` of the old state |
| SmoothScroll.Controller.OnFinishSettle | utils/smoothScroll.ts:189-196 | the state becomes `FinishSettle` of the old state |
| SmoothScroll.Controller.OnFinishRestore | utils/smoothScroll.ts:199-209 | the state becomes `FinishRestore` of the old state |
| SmoothScroll.Controller.SmoothScrollTo | utils/smoothScroll.ts:23-87 | under 50 px: jump to the target and run the callback, nothing else; otherwise the phone path, or on a desktop flags on, interactions off and a fresh animation from the current offset |
| SmoothScroll.Controller.SimpleSmoothScrollMobile | utils/smoothScroll.ts:93-174 | flags on and the expected position set to the target; under 150 px: jump and `finishScroll`; otherwise a fresh stepped scroll with `StepCount(duration)` steps and both interrupt listeners armed |
| SmoothScroll.Controller.OnAnchorClick | utils/smoothScroll.ts:216-256 | no anchor, an empty id or a missing element changes nothing; otherwise a programmatic scroll is under way or the page already sits at element top + scrollY − offset |
| SmoothScroll.DesktopScroll.Frame | utils/smoothScroll.ts:61-84 | the first frame fixes the start time; an unfinished frame puts the page at start + distance·e(progress); the last frame ends exactly at the target and calls `finishScroll` |
| SmoothScroll.SteppedScroll.DoStep | utils/smoothScroll.ts:130-159 | an interrupted scroll (flag or local flag false) only calls `finishScroll`; otherwise the step count goes up by one and the page moves to that step's rounded position, or to exactly the target (then `finishScroll`) on the last step |
| SmoothScroll.SteppedScroll.OnWheel | utils/smoothScroll.ts:162-169 | the one-shot wheel listener interrupts only while a programmatic scroll runs, and only once |
| SmoothScroll.SteppedScroll.OnTouchMove | utils/smoothScroll.ts:162-170 | the one-shot touchmove listener interrupts only while a programmatic scroll runs, and only once |
| SmoothScroll.SteppedScroll.Interrupt | utils/smoothScroll.ts:162-166 | the local flag clears exactly when a programmatic scroll runs |
| SmoothReveal.DefaultAnimationOptions | utils/smoothReveal.ts:16-24 | duration 600/800 and scale 0.97/0.95 on phone/desktop; delay 0, once, opacity 0, distance 30px, the fixed easing |
| SmoothReveal.Merge | utils/smoothReveal.ts:41 | every supplied option wins and every unsupplied key keeps its default |
| SmoothReveal.MergeIdentityAndIdempotent | utils/smoothReveal.ts:41 | no overrides keep the defaults; merging the same overrides twice equals merging once |
| SmoothReveal.MergeTwice | utils/smoothReveal.ts:41 | two successive spreads equal one spread of the combined overrides |
| SmoothReveal.MergeFullOverride | utils/smoothReveal.ts:41 | overrides of every key make the defaults irrelevant |
| SmoothReveal.InitialTransform | utils/smoothReveal.ts:108-123 | `scale(s)` then `translateY(d)`, `translateY(-d)`, `translateX(d)` or `translateX(-d)` for up, down, left, right; exactly the other directions get `scale(s)` alone |
| SmoothReveal.InitialTransformDistinguishes | utils/smoothReveal.ts:110-123 | different known directions give different transforms |
| SmoothReveal.DirectionOf | utils/smoothReveal.ts:58 | an absent or empty attribute means up, otherwise the attribute |
| SmoothReveal.ParseIntBase10 | utils/smoothReveal.ts:62 | `parseInt(s, 10)` gives NaN exactly when no digit follows the leading white space and sign |
| SmoothReveal.ParseIntReadsIntToString | utils/smoothReveal.ts:62 | in exact arithmetic `parseInt` reads back every integer's decimal text, also with non-digit text after it (for the source's doubles only while the integer's magnitude is at most 2^53) |
| SmoothReveal.ParseIntNoDigits | utils/smoothReveal.ts:62 | text without any digit parses to NaN |
| SmoothReveal.DelayOf | utils/smoothReveal.ts:61-63 | an absent or empty attribute gives the option's delay, otherwise the attribute's base-10 parse (NaN included) |
| SmoothReveal.DelayOfIntegerText | utils/smoothReveal.ts:61-63 | an attribute holding an integer's text gives exactly that delay |
| SmoothReveal.ResetDelay | utils/smoothReveal.ts:152-154 | the will-change reset is due at duration + delay + 100 ms; timers clamp it at 0, and a NaN delay means 0 |
| SmoothReveal.SetInitialStyles | utils/smoothReveal.ts:99-128 | opacity is the option's opacity as text, transform is `InitialTransform`, transition `none`, will-change `opacity, transform` |
| SmoothReveal.AnimateElement | utils/smoothReveal.ts:133-155 | opacity `1`, transform `scale(1) translate(0, 0)`, the transition text with the element's delay, `has-animated` added, the reset due at `ResetDelay` |
| SmoothReveal.ResetWillChange | utils/smoothReveal.ts:152-154 | will-change becomes `auto` |
| SmoothReveal.RevealObserver.OnEntry | utils/smoothReveal.ts:49-75 | skipped when scrolling fast on a phone or not intersecting; otherwise the target is revealed, and with once it is unobserved |
| SmoothReveal.RevealObserver.OnEntries | utils/smoothReveal.ts:48-77 | scrolling fast on a phone changes nothing; otherwise exactly the intersecting targets are revealed, only they leave the observed set under once, the rest are untouched, and the pending resets are exactly `PendingResets`: every intersecting entry's target has its reset due at `ResetDelay`, and no other reset is pending |
| SmoothReveal.RevealObserver.DeliverEntries | utils/smoothReveal.ts:48-77 | the callback's loop: the same outcome as `OnEntries`, with the intersecting targets given as `Hits` and the pending resets as exactly `PendingResets` |
| SmoothReveal.HitsIntersect | utils/smoothReveal.ts:48-77 | `Hits` holds exactly the targets that some entry of the batch reports as intersecting |
| SmoothReveal.PendingResetsSound | utils/smoothReveal.ts:48-77 | every pending will-change reset belongs to an intersecting target and is due at that target's `ResetDelay` |
| SmoothReveal.PendingResetsComplete | utils/smoothReveal.ts:48-77 | every intersecting entry leaves a reset pending for its target, due at `ResetDelay` |
| SmoothReveal.InitSmoothReveal | utils/smoothReveal.ts:31-94 | no elements mean no observer; elements with `has-animated` are neither restyled nor observed; every other element gets its initial styles and is observed with the merged options, by an observer created with threshold 0.1 and root margin `0px 0px -10% 0px` |

## Left out

- React's `useState`, `useEffect`, `useMemo` and `useCallback` are not modelled. Neither are the JSX output or the `requestAnimationFrame`, `setInterval`, `setTimeout`, `clearTimeout` and `cancelAnimationFrame` scheduling. Each callback is a method the caller invokes, and stopping is making no more calls.
- Timer delays are not modelled, because the caller decides when each timer step runs. These are the 800/1000 ms spawn interval, `timePerStep`, the 10 ms first step, the 200 ms user-scroll timeout, the 150/300 ms cleanup delay and `finishScroll`'s 100/200 ms and 50/100 ms delays.
- Browser APIs are replaced by fields and parameters: `window.scrollTo`, `classList`, `style`, `IntersectionObserver`, event listeners, `getBoundingClientRect`, `performance.now()` and `querySelectorAll`.
  - The browser's clamping of `scrollTo` to the scrollable range is not modelled.
  - A scroll event is whatever call of `OnScroll` the caller makes after a position change.
- Coordinates, speeds and easing use exact `real` arithmetic, not IEEE-754 doubles.
- `renderPetal`'s cosmetic 3D rotation, wobble, blur, drop shadow and `will-change` values are left out. So is the image path that `imageIndex` selects.
- `containerStyle` is memoised on `isMobile` only, so the page can show a stale opacity. `ContainerStyleFor` states the value it computes when it is recomputed.
- The frame loop records the scroll offset before its throttle check, so a skipped frame's scroll delta is never applied to the petals (`Field.Tick` states this).
- app/page.tsx mounts the component without `isScrolling`, so the scrolling branches never run on the deployed page. They are modelled as functions of their inputs anyway.
- `addNewPetals` reads the mount-time `isScrolling` prop, not the ref. `Spawn` takes that flag as a parameter.
- The static sections, the contact form, the mobile menu and the header flag of app/page.tsx are not part of this model. They hold no logic beyond markup and class toggles.
- `initSmoothScrolling`'s and `initSmoothReveal`'s early returns without a window or without `IntersectionObserver` are not modelled; the model always has both.
- `initSmoothReveal`'s selector argument is not modelled; the matched elements are a parameter.
- `scrollToElement`'s default offset and duration are not modelled; the anchor handler always passes both.
- `smoothScrollTo`'s default duration of 500 ms is not modelled; `SmoothScrollTo` always receives its duration.
- A spread with an explicitly `undefined` key overrides the default in JavaScript. `PartialOptions` cannot express that; `None` means the key is absent.
- JavaScript's number-to-text conversion is the parameter `show`, about which nothing is assumed.
- Petals.Fall: states nothing about the new rotation. The wobble term `sin(y/30)` makes it cosmetic.
- SmoothScroll.Progress: a duration of zero or less makes the source compute NaN or ±Infinity. The model takes progress 1 instead, which yields the same final frame at the target.
- SmoothScroll.DesktopScroll.Frame: takes the frame timestamp as `finishScroll`'s clock reading. The source calls `performance.now()` again.
- SmoothScroll.SteppedScroll.DoStep: on the last step the source first scrolls to the eased position and then, in the same callback, to the target. The model keeps only the second scroll. With fewer than one step, the eased position of the source's first call is ±Infinity and is dropped the same way.
- SmoothScroll.Controller.OnAnchorClick: on the scrolling path it states only that a programmatic scroll is under way or that the page already sits at the target. `SmoothScrollTo`'s contract gives the detail.
- The transition text takes its numbers through `show`; how JavaScript prints a number is not modelled.
- SmoothReveal.ParseIntBase10: returns an unbounded integer. JavaScript's `parseInt` returns a double, so a digit run for an integer above 2^53 in magnitude reads back rounded, and a run of more than about 309 digits gives Infinity.
- SmoothReveal.ParseIntReadsIntToString: the round trip holds for the source only while |i| ≤ 2^53; above that the double rounds.
- SmoothReveal.DelayOfIntegerText: same limit as `ParseIntReadsIntToString`, |i| ≤ 2^53.
- SmoothReveal.ResetDelay: `setTimeout` converts its delay to a 32-bit signed integer, so a delay above 2^31 − 1 ms (3e9 ms, say) fires at once in the source. The model keeps the unbounded delay.

## Where the code departs from its own names and comments

The model follows the code in these places:

- **Scrolling branch** (components/sakura-animation.tsx:151-153, 158-176, 181-183). The reduced `swayAmount` 0.5 and `rotationSpeed` 0.2 suggest a damped sway while scrolling. The scrolling branch returns early, though, with its own movement that uses neither value. The later branch therefore always runs with the full sway 2.8, spin factor 1.0 and a zero `scrollEffect`.
- **Resizing** (components/sakura-animation.tsx:231-250, 253-315). The resize handler only stores the new size. The mount effect depends on `createPetal` and `animatePetals`, which change with the size, so a resize re-seeds the list and re-arms the spawn timer (`Field.Resize`).
- **Every resize event re-seeds, and so does the mount** (components/sakura-animation.tsx:53, 240-241). `getOptimalPetalCount` depends on the whole `dimensions` object, and `handleResize` always stores a fresh one. So the mount effect runs again after every `resize` event, even one that keeps the size. The resize effect also calls `handleResize` once at mount. A mount is therefore `Start` followed by `Resize(vp, …)` (`Field.Mount`): the page shows the second batch, with ids from `initial` upward, and the counter stands at twice the initial count.
- **Eviction bound** (components/sakura-animation.tsx:210). A petal survives while y ≤ h + 1500, so the invariant is `≤`, not `<`.
- **Fallback size** (components/sakura-animation.tsx:28-31). The 1920×1080 fallback is used only without a window; a zero-width window is taken as it is.
- **Phone easing** (utils/smoothScroll.ts:126-128). The function named `easeOutQuint` is the cubic 1 − (1 − x)³, not a fifth power.
