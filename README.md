# Frontend-Battle page script in Dafny

This project models the logic inside the page script `script.js` of a
marketing site. Most of that script is DOM wiring. The model covers the
parts that compute and remember something:

- **Particle field** (`ParticleField`). The testimonial canvas holds one
  particle per 9000 square pixels, with random size, position, direction
  and colour. On every frame each particle does three things in order:
  - it reverses a direction component when it touches an edge;
  - it is pushed away from the mouse pointer when the pointer is within
    `100 + size` pixels;
  - it drifts by its direction.
- **Idle objects** (`IdleObjects`). Decorative elements wake up after more
  than 5000 ms without pointer movement or scrolling. While awake, an object
  within 200 px of the last pointer position gets an offset pointing away
  from the pointer. Otherwise its offset eases back towards zero by 5% per
  frame. Any activity hides the objects and snaps them back to rest.
- **Theme** (`Theme`). `setTheme` writes the body classes, the two icons and
  the stored preference. `initializeTheme` picks the saved value, then the
  system preference, then light. The two toggle buttons share one behaviour.
- **Video loader** (`VideoLoader`). A simulated progress counter advances by
  5 on each interval tick and is shown as a percentage. The
  `loadedmetadata`, `playing` and `canplaythrough` handlers control it, and
  the hide sequence shows 100% before the video is revealed.
- **Mobile menu** (`MobileMenu`). The menu button toggles the menu. Link
  clicks, clicks outside the menu and desktop-width resizes close it.

Each component follows the same pattern:

- a `datatype` holds the state one step reads and writes;
- pure functions over that datatype describe each operation;
- a `class` holds the same state as mutable fields;
- methods on the class perform the source's statements in place, and each
  `ensures` that the new state is the pure function applied to the old one;
- the properties are lemmas about the pure functions.

`Math.sqrt` is a parameter `sqrt` that the lemmas require to return the
non-negative square root (`Common.IsSqrt`). `(Math.cos(a), Math.sin(a))` for
`a = Math.atan2(dy, dx)` is written `Common.Direction(dx, dy, d)`. That is
`(dx/d, dy/d)`, or `(1, 0)` for the zero vector, because `atan2(0, 0)` is 0.

Four behaviours of the script are easy to misread:

- **Idle repulsion replaces the offset.** It sets
  `translate(moveX, moveY)` (script.js:486) rather than adding to the
  current offset. So the offset never grows beyond 20 px
  (`IdleObjects.StepKeepsOffsetBounded`); it is not unbounded.
- **The particle push factor can exceed 1.** The factor
  `(radius + size - distance) / radius` lies in `(0, (100 + size)/100]`,
  not `(0, 1]`, because the pointer may be closer than the particle's
  radius.
- **Direction draws are half-open.** `Math.random() * 0.5 - 0.25` lies in
  `[-0.25, 0.25)`.
- **A particle pushed far past an edge stays there.** The edge test
  (script.js:280-285) reverses a direction whenever the particle overlaps an
  edge, not only when it moves outwards. The push can take a particle more
  than one step past the left edge (`ParticleField.PushCanLeaveBounds`).
  After that its horizontal direction flips on every frame and it never
  comes back (`ParticleField.StuckPastLeftEdge`).

## Model

| member | source | states |
|---|---|---|
| ParticleField.ParticleCount | script.js:228 | the particle count `n` is `floor(w*h/9000)`: `n*9000 <= w*h < (n+1)*9000` |
| ParticleField.ParticleCountOfSquare | script.js:228 | a 300 by 300 canvas gets exactly 10 particles |
| ParticleField.StartCoordinate | script.js:235-236 | on a canvas at least four radii across, a start coordinate is at least one diameter inside both edges |
| ParticleField.ColorIndex | script.js:239 | `floor(random * colors.length)` is always a valid palette index |
| ParticleField.Spawn | script.js:233-240 | a new particle has radius in [1,6), both direction components in [-0.25,0.25), a palette colour, and starts one diameter inside the edges when the canvas allows it |
| ParticleField.Bounce | script.js:280-285 | the edge test changes only the directions; position, radius and colour are untouched |
| ParticleField.Force | script.js:295 | the push factor is positive inside the repel range and at most `(radius+size)/radius` |
| ParticleField.ForceNonIncreasing | script.js:295 | the push factor never grows as the distance grows |
| ParticleField.Repel | script.js:288-300 | the push keeps directions, radius and colour, and changes nothing when the pointer is absent or out of range |
| ParticleField.Step | script.js:278-306 | one `update`: each direction component is negated exactly when its axis hits an edge; radius and colour never change; with no push the position moves by exactly the new direction |
| ParticleField.RepelMovesIffClose | script.js:288-300 | the push moves the particle if and only if the pointer is defined and closer than `radius + size` |
| ParticleField.RepelDisplacement | script.js:298-299 | the push has length exactly `force * 1.5` |
| ParticleField.RepelMovesAway | script.js:289-299 | after the push the distance to the pointer is the old distance plus `force * 1.5`, so it strictly grows |
| ParticleField.InBoundsNearCanvas | script.js:280-285 | a particle satisfying the bounce invariant is within one step of `[size, limit - size]` on each axis |
| ParticleField.StepKeepsInBounds | script.js:280-304 | with the pointer away, one frame keeps the bounce invariant and the speed of each direction component |
| ParticleField.FramesKeepInBounds | script.js:312-318 | with the pointer away, any number of frames keeps the bounce invariant, the radius and the speeds |
| ParticleField.SpawnInBounds | script.js:233-240 | on a canvas at least 24 px in each direction, every new particle satisfies the bounce invariant |
| ParticleField.PushCanLeaveBounds | script.js:280-304 | one frame with the pointer one pixel to the right of a radius-1 particle at (1,12) takes it out of the bounce invariant |
| ParticleField.StuckPastLeftEdge | script.js:280-303 | a particle more than one step past the left edge is back at the same `x`, moving the same way, after every even number of pointer-free frames |
| ParticleField.SpawnedParticleStaysOnCanvas | script.js:223-318 | a particle spawned on such a canvas stays strictly inside it (and within one radius of it) for any number of pointer-free frames |
| Common.DirectionIsUnit | script.js:293-299 | `(cos, sin)` of `atan2(dy, dx)` has unit length |
| Common.DirectionScales | script.js:293-299 | the direction times the distance is the vector `(dx, dy)` itself |
| ParticleField.Particle.constructor | script.js:256-263 | the new particle holds exactly the given fields |
| ParticleField.Particle.PushAway | script.js:298-299 | the two `-=` statements move the particle by `force * 1.5` against the direction |
| ParticleField.Particle.Update | script.js:278-306 | the particle's new state is one `Step` of its old state |
| ParticleField.TestimonialCanvas.constructor | script.js:215-217 | no particles and no pointer before the first `initCanvas` |
| ParticleField.TestimonialCanvas.InitCanvas | script.js:223-242 | the canvas takes its box size; the array holds exactly `ParticleCount` new particles, each made by `Spawn` from its draws, distinct, and none from the old array |
| ParticleField.TestimonialCanvas.AnimateFrame | script.js:312-318 | every particle takes exactly one `Step` with the same canvas size and pointer |
| ParticleField.TestimonialCanvas.MouseMove | script.js:321-325 | the pointer becomes the event position relative to the canvas; particles and size are untouched |
| ParticleField.TestimonialCanvas.MouseLeave | script.js:328-331 | the pointer becomes absent; particles and size are untouched |
| IdleObjects.RestPosition | script.js:445-450 | a percentage placement becomes pixels; a placement in 0..100 lands inside the viewport |
| IdleObjects.ForceFactor | script.js:482 | the factor is in (0,1] inside the 200 px radius and 1 at distance 0 |
| IdleObjects.StepObject | script.js:456-506 | one frame of one object: active exactly when idle; offset (0,0) when not idle; the eased offset when idle and not repelled |
| IdleObjects.ActivityHidesAll | script.js:461-503 | within 5000 ms of the last activity an object ends the frame inactive at offset (0,0), whatever the pointer does |
| IdleObjects.EaseKeepsSignAndShrinks | script.js:487-495 | easing multiplies a component by 0.95: its sign is kept and its size never grows, strictly shrinking unless zero |
| IdleObjects.EaseExample | script.js:487-495 | an idle object at offset (10,10) with no pointer moves to (9.5,9.5) |
| IdleObjects.NoPointerNeverRepels | script.js:458-480 | with no known pointer no idle frame is repelled |
| IdleObjects.EasedIsGeometric | script.js:491-494 | easing an offset `n` times scales each component by `0.95^n` |
| IdleObjects.IdleFramesOnlyEase | script.js:480-495 | `n` idle frames with the pointer never within 200 px leave the object active with its offset eased `n` times |
| IdleObjects.IdleFramesDecay | script.js:487-495 | after `n` idle frames in which the pointer (fixed, possibly absent) is never within 200 px, each offset component is `0.95^n` times its start value |
| IdleObjects.AtRestWithoutPointer | script.js:480-503 | while the pointer is still undefined, an object at offset (0,0) keeps offset (0,0) in every frame, idle or not |
| IdleObjects.RepulsionLength | script.js:480-486 | a repelled object's offset is replaced by one of length `20*f`, which lies in (0,20] |
| IdleObjects.RepulsionPointsAway | script.js:480-486 | the new offset points away from the pointer: its projection on the pointer vector is `-20*f*distance` |
| IdleObjects.RepulsionAlongAxis | script.js:480-486 | with the pointer `a < 200` px to the right of the drawn object, the offset becomes `(-20*f, 0)` |
| IdleObjects.RepulsionExample | script.js:480-486 | an object resting at the origin with the pointer at (150,0) gets the offset (-5,0) |
| IdleObjects.StepKeepsOffsetBounded | script.js:456-506 | every frame keeps the offset length at most 20 |
| IdleObjects.IdleObject.constructor | script.js:445-450 | the rest position comes from the placement and the viewport; the transform starts at (0,0), inactive |
| IdleObjects.IdleObject.Update | script.js:462-503 | the object's new state is one `StepObject` of its old state |
| IdleObjects.IdleObject.Move | script.js:486 | writing the transform sets the offset and nothing else |
| IdleObjects.IdleField.constructor | script.js:439-450 | one resting hidden object per placement, no known pointer (script.js:521-522), activity time now |
| IdleObjects.IdleField.MouseMove | script.js:509-513 | records the pointer and resets the activity time |
| IdleObjects.IdleField.Scroll | script.js:516-518 | resets the activity time only |
| IdleObjects.IdleField.UpdateIdleObjects | script.js:456-506 | every object takes one `StepObject` with the frame's idleness and pointer |
| Theme.ModeOf | script.js:58-59 | dark if and only if the requested name is `"dark"` |
| Theme.ApplyTheme | script.js:58-76 | `setTheme` leaves the page showing the requested mode consistently (body class, both icons, stored name) and keeps the other stored keys |
| Theme.InitialTheme | script.js:81-92 | a non-empty saved value decides the mode; otherwise the system dark preference; otherwise light |
| Theme.Toggle | script.js:95-110 | a click makes a light page dark and any other page light |
| Theme.NameRoundTrip | script.js:58-76 | requesting a mode by the name `setTheme` stores applies that mode |
| Theme.ToggleSwitches | script.js:95-110 | on a consistently themed page a click switches to the other mode |
| Theme.ToggleTwice | script.js:95-110 | on a consistently themed page two clicks give back exactly the same page, storage included |
| Theme.ApplyThemeIdempotent | script.js:58-76 | applying a theme twice equals applying it once |
| Theme.ReloadRestoresTheme | script.js:58-92 | a reload that finds the stored preference shows the same mode, whatever the system preference |
| Theme.ThemeSwitcher.constructor | script.js:2-6 | the page state as found before the script runs |
| Theme.ThemeSwitcher.SetTheme | script.js:58-76 | the class edits and the storage write give `ApplyTheme` of the old page |
| Theme.ThemeSwitcher.InitializeTheme | script.js:81-92 | the page becomes `InitialTheme` of the old page |
| Theme.ThemeSwitcher.ToggleClick | script.js:95-110 | either toggle button gives `Toggle` of the old page |
| MobileMenu.ButtonClick | script.js:117-125 | the button flips `hidden`; an opened menu gets its content height, a closed one height 0 |
| MobileMenu.Close | script.js:130-133 | closing leaves the menu hidden at height 0 and changes nothing on a hidden menu |
| MobileMenu.LinkClick | script.js:128-135 | a link click leaves the menu hidden |
| MobileMenu.DocumentClick | script.js:138-145 | a click outside both the button and the menu closes it; any other click changes nothing |
| MobileMenu.Resize | script.js:148-153 | a window at least 1024 px wide closes the menu; a narrower one changes nothing |
| MobileMenu.HandlersKeepCoherent | script.js:117-153 | every handler keeps "hidden means collapsed, open means an inline pixel height" |
| MobileMenu.CloseIdempotent | script.js:130-133 | closing twice is closing once |
| MobileMenu.OpenThenCloseCollapses | script.js:117-125 | opening a hidden menu and pressing again leaves it hidden at height 0 |
| MobileMenu.ButtonClickBubbles | script.js:117-145 | the button click reaching the document handler changes nothing further |
| MobileMenu.MobileMenuElement.constructor | script.js:8 | the menu starts hidden with no inline height |
| MobileMenu.MobileMenuElement.OnButtonClick | script.js:117-125 | the element ends as `ButtonClick` of its old state |
| MobileMenu.MobileMenuElement.OnLinkClick | script.js:128-135 | the element ends as `LinkClick` of its old state |
| MobileMenu.MobileMenuElement.OnDocumentClick | script.js:138-145 | the element ends as `DocumentClick` of its old state |
| MobileMenu.MobileMenuElement.OnResize | script.js:148-153 | the element ends as `Resize` of its old state |
| VideoLoader.Shown | script.js:348-359 | the loader starts shown at 0% with no interval, satisfying the display invariant |
| VideoLoader.Hide | script.js:365-368 | hiding shows 100% on label and bar and schedules one reveal; counter and interval untouched |
| VideoLoader.LoadedMetadata | script.js:398-404 | the counter and display reset to 0 and the interval runs |
| VideoLoader.Tick | script.js:406-415 | the counter grows by 5; up to 100 it is displayed; past 100 the interval stops and hiding starts |
| VideoLoader.Playing | script.js:419-422 | the interval stops and the loader is hidden at once |
| VideoLoader.CanPlayThrough | script.js:425-430 | below 100 the interval stops and hiding starts; from 100 on nothing changes |
| VideoLoader.Reveal | script.js:379-384 | the loader goes, the video is visible, one fewer reveal pending |
| VideoLoader.HandlersKeepValid | script.js:394-430 | every handler keeps the display a multiple of 5 in [0,100] and the counter a multiple of 5 in [0,105] |
| VideoLoader.CanPlayThroughActsIffBelowFull | script.js:425-430 | `canplaythrough` changes the state if and only if the counter is below 100 |
| VideoLoader.TicksCountUp | script.js:406-415 | from a reset, `n <= 20` ticks give counter and display `5n` with the interval still running |
| VideoLoader.TwentyFirstTickHides | script.js:406-415 | from a reset, the 21st tick takes the counter to 105, stops the interval and shows 100% |
| VideoLoader.ProgressLoader.constructor | script.js:348-359 | the loader's state is `Shown` |
| VideoLoader.ProgressLoader.HideCustomVideoLoader | script.js:365-368 | the state becomes `Hide` of the old one |
| VideoLoader.ProgressLoader.OnLoadedMetadata | script.js:398-404 | the state becomes `LoadedMetadata` of the old one, keeping the invariant |
| VideoLoader.ProgressLoader.OnIntervalTick | script.js:406-415 | the state becomes `Tick` of the old one, keeping the invariant |
| VideoLoader.ProgressLoader.OnPlaying | script.js:419-422 | the state becomes `Playing` of the old one, keeping the invariant |
| VideoLoader.ProgressLoader.OnCanPlayThrough | script.js:425-430 | the state becomes `CanPlayThrough` of the old one, keeping the invariant |
| VideoLoader.ProgressLoader.OnReveal | script.js:379-384 | the state becomes `Reveal` of the old one, keeping the invariant |

## Left out

- Drawing is left out: `ctx.arc`, `fill`, `clearRect` and `draw()` produce pixels, not state.
- `requestAnimationFrame` and the endless frame loops are left out. One frame is one call of `AnimateFrame` or `UpdateIdleObjects`.
- Timer scheduling is left out: the 200 ms interval, the 1000 ms L-shape step of the hide sequence (CSS only), the 500 ms global-loader delay and the 150 ms stagger. Ticks and the 2500 ms reveal are explicit calls.
- The video element API is left out: `pause`, `play`, `load`, `currentTime`, opacity and visibility beyond one `videoVisible` flag.
- `Math.random` is not modelled: the six draws per particle arrive as `Draw` values in [0,1).
- `Math.sqrt` is the `sqrt` parameter. The trigonometry is reduced to `Direction`.
- Floating-point rounding is not modelled: all arithmetic is on `real`.
- `NaN` from an undefined pointer is not modelled: the pointer is an `Option`, and `None` stands for `undefined`.
- The parsing and formatting of the `translate(...)` strings (script.js:466-468, 486, 495) is not modelled. The two numbers are held directly, assuming the number-to-string round trip is exact.
- The parsing of the `left`/`top` percentages (script.js:447-448) is not modelled: they arrive as reals.
- `localStorage` is a `map` field of the theme state. `matchMedia` is the `prefersDark` argument; a browser without `matchMedia` is `prefersDark == false`.
- Body and icon classes other than `light`/`dark` and `fa-sun`/`fa-moon` are not modelled.
- `progressInterval` is modelled as a running flag: clearing an interval that has already stopped has no effect, so the handle itself carries nothing more.
- The global loader overlay (script.js:28-49) is not part of this model.
- The homepage hover fader (script.js:156-165) is not part of this model.
- The IntersectionObserver scroll reveals and the showcase number (script.js:167-207) are not part of this model.
- The wiring that registers the handlers is not modelled (`load` listeners, `resize` → `initCanvas`). Each handler is a method that can be called in any order.
- ParticleField.SpawnedParticleStaysOnCanvas: the on-canvas bound is proved only for frames without the pointer and for canvases at least 24 px in each direction. The push can break it (`PushCanLeaveBounds`), and a particle left more than one step past the left edge never returns (`StuckPastLeftEdge`).
- IdleObjects.IdleObject.constructor: the start-up pass (script.js:445-450) only sets the rest position and the transform. The page markup is not part of this model, so the elements are taken to start without the `active` class. The first frame runs within 5000 ms of load (script.js:441, 498-503) and removes `active` anyway.
- IdleObjects.IdleField.constructor: rest positions are computed once from the viewport at start-up and never recomputed on resize, as in the script.
- MobileMenu.MobileMenuElement.constructor: the page markup is not part of this model; the menu is taken to start hidden with no inline height.
