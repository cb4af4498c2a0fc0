# Portfolio page behaviour, modelled in Dafny

This project models the logic inside the single script of a personal portfolio
page, `script.js`. Everything that talks to the DOM, to Three.js or to timers
is stripped away, and what is left is stated over Dafny values and
small classes:

- **Terminal typing** (`typing.dfy`). The hero terminal types a command one
  character at a time, holds it, deletes it one character at a time, and then
  moves cyclically to the next of eight commands. The closure state is the
  class `Typing.Terminal`. One step is the pure function `Typing.Step`. The
  proofs cover:
  - the reachable-state invariant;
  - what text is displayed;
  - the mode switches and the delays;
  - the exact period of the whole cycle.
- **Konami code** (`konami.dfy`). A document-wide key listener walks through a
  ten-key sequence. The proofs characterise exactly when it fires. They also
  show that a wrong key always resets the index, even when that key is the
  first key of the code, so the matcher does not restart a partial match.
- **Project filter** (`filter.dfy`). Clicking a filter button activates
  exactly that button. It hides every card whose space-separated category
  list does not contain the filter word; the word `all` shows every card.
  JavaScript's `split(' ')` is modelled exactly, empty pieces included, and
  the proofs show that it round-trips with `join`.
- **Theme toggle** (`theme.dfy`). The rule that both toggle buttons apply to
  the `data-theme` attribute, and the "dark unless explicitly light"
  rendering rule.
- **Viewport breakpoints** (`viewport.dfy`). The camera distance and field of
  view chosen at start-up and on resize. The card offsets chosen for each
  frame.
- **Orbit controller** (`orbit.dfy`). Mouse and touch drags, the
  focus-on-project request, auto-rotation and per-frame easing of the sphere's
  rotation:
  - the class `Orbit.OrbitController` holds the shared handler state;
  - functions and lemmas state the clamps;
  - lemmas state that easing never overshoots, shrinks the gap geometrically
    and converges within a stated number of frames.
- **Project card overlay** (`overlay.dfy`). Each frame writes opacity, scale,
  stacking order, position and visibility for each project card. These are
  given as functions of the card's depth and projected coordinates.

Numbers in the sphere code are modelled as mathematical reals, not IEEE
doubles. `Math.PI` is a positive parameter, `pi`, of the orbit controller and
the clamp functions.

## Model

| member | source | states |
|---|---|---|
| Typing.PrefixUpTo | script.js:170-174 | `substring(0, end)` clamps `end` into `[0, length]` and returns that prefix |
| Typing.Step | script.js:166-189 | one typing step keeps the command index in range |
| Typing.StepKeepsInv | script.js:166-186 | the reachable-state invariant is preserved, and the new text is exactly the first `charIndex` characters of the current command |
| Typing.StepModes | script.js:179-186 | typing switches to deleting exactly when the command is complete; deleting switches back exactly when the text becomes empty, and only then does the index advance cyclically; the character index moves by one |
| Typing.StepDelay | script.js:172-185 | the delay is 2000 ms after completing a command, 500 ms after erasing it, and otherwise 50 ms while deleting and 100 ms while typing |
| Typing.Run | script.js:188 | repeated steps keep the command index in range |
| Typing.RunKeepsInv | script.js:161-189 | the invariant holds after any number of steps from a reachable state |
| Typing.RunAdd | script.js:188 | running `a + b` steps is running `a` steps and then `b` |
| Typing.TypeOut | script.js:173-181 | while typing, `k` steps advance the cursor by `k` and switch mode at the end of the command |
| Typing.DeleteOut | script.js:169-185 | while deleting, `k` steps move the cursor back by `k`, and reaching zero starts the next command |
| Typing.CommandCycle | script.js:166-189 | a command of length `L` takes exactly `2L` steps and leaves the terminal at the start of the next command |
| Typing.FullCycle | script.js:161-191 | after typing and deleting commands `i..` in turn, the terminal is back at its initial state |
| Typing.Periodic | script.js:150-191 | the typing effect is periodic, with period equal to the sum of twice the command lengths |
| Typing.CommandsNonEmpty | script.js:150-159 | the eight source commands are all non-empty, so the invariant holds from the start |
| Typing.Terminal.constructor | script.js:161-164 | the closure starts at command 0, character 0, typing, with speed 100 |
| Typing.Terminal.Type | script.js:166-189 | one call of `type()` updates the closure exactly as `Step` does, keeps the invariant, and leaves the terminal showing the first `charIndex` characters of the current command |
| Konami.KeyStep | script.js:407-417 | the index after a key is always a valid position in the code |
| Konami.KeyStepCases | script.js:408-416 | a matching key advances the index; any other key resets it to zero; the egg fires exactly on the tenth matching key and the index is then zero |
| Konami.Feed | script.js:404-417 | after any sequence of keys the index is valid |
| Konami.FeedAppend | script.js:407-417 | feeding `a + b` is feeding `a` and then `b` from the resulting index |
| Konami.FeedSound | script.js:405-416 | the index `i` after any keys means that the last `i` keys are the first `i` code keys, typed from a reset state; a firing key completes the whole code |
| Konami.CodePrefix | script.js:404-413 | from a reset listener, the first `k` code keys bring the index to `k`, and all ten fire |
| Konami.FiresIff | script.js:407-417 | the egg fires on a key if and only if the last ten keys are the code and the index was zero before the first of them |
| Konami.TypingCodeFires | script.js:404-413 | typing the code from a reset state fires on its last key and on no earlier one |
| Konami.AwayFromStart | script.js:414-416 | keys that never equal the code's first key keep a reset listener at zero, without firing |
| Konami.ExtraArrowUpMisses | script.js:408-416 | an extra leading `ArrowUp` before the code ends at index zero without firing, because a mismatch does not restart the match |
| Konami.KonamiListener.KeyDown | script.js:407-417 | the listener updates its index and reports firing exactly as `KeyStep` does |
| Konami.KonamiListener.constructor | script.js:405 | the listener starts reset, at index 0 |
| Filter.Split | script.js:235 | `split(' ')` returns at least one piece, and no piece contains the separator |
| Filter.JoinSplit | script.js:235 | joining the pieces with the separator gives back the category string |
| Filter.SplitJoin | script.js:235 | splitting the join of separator-free pieces gives back those pieces |
| Filter.Visible | script.js:237 | the filter `all` shows every card, and any card shown under another filter was matched by a filter word without spaces |
| Filter.VisibleIffWord | script.js:237 | a card is shown exactly when the filter is `all`, or is one of the space-separated words its category string is made of |
| Filter.FilterExtremes | script.js:237 | `all` shows every card; any other filter containing a space shows none |
| Filter.FilterPanel.Click | script.js:226-243 | after a click exactly the clicked button is active, and each card is hidden exactly when it is not visible under the button's filter |
| Theme.Toggle | script.js:34-38 | the new theme is `dark` exactly when the current attribute is `light`, and `light` otherwise, including when there is no attribute |
| Theme.IsDark | script.js:586 | the page renders dark when the attribute is missing, and exactly when a click would switch it to `light` (the same test is at script.js:654 and 911) |
| Theme.ToggleFlipsDarkness | script.js:355-359 | every click of either button flips what is rendered under the rule that only `light` renders light (script.js:586, 654 and 911) |
| Theme.ToggleTwice | script.js:34-38 | two clicks restore the rendering; they restore the attribute exactly when it was `light` or `dark`, and otherwise leave `dark` |
| Viewport.CameraPresetFor | script.js:590-606 | distance 8 and fov 65 for width ≤ 480; 7.5 and 62 for widths 481–768; 7 and 55 for wider windows under 500 px high; 6 and 60 otherwise; each tier in both directions |
| Viewport.CardOffsetFor | script.js:976-987 | offsets (60, 50) for width ≤ 480, (70, 55) for 481–768 and (90, 70) above, each in both directions |
| Viewport.TiersAgree | script.js:1012-1028 | the resize breakpoints match the card-offset breakpoints tier by tier |
| Viewport.DistanceNonIncreasing | script.js:1019-1028 | for a fixed height, a wider window never puts the camera farther away |
| Viewport.ResizeToPhone | script.js:1010-1028 | resizing from 1024 px to 400 px wide switches from the desktop to the small-mobile camera and offsets |
| MathOps.Clamp | script.js:1047 | `Math.max(lo, Math.min(hi, x))` is at least `lo`, at most `hi` when `lo <= hi`, equals `x` inside the range and the nearer bound outside it (the same idiom is at script.js:868, 965 and 1090) |
| Orbit.DragPitch | script.js:1046-1047 | the dragged target pitch stays within ±pi/3, equals the unclamped value inside that range, and equals the nearer bound outside it |
| Orbit.FocusPitch | script.js:868 | the focus pitch stays within ±pi/2.5, is unchanged inside that range, and goes to the nearer bound outside it |
| Orbit.Smooth | script.js:1111-1112 | one frame shrinks the gap to the target by exactly a factor 0.95 |
| Orbit.SmoothBetween | script.js:1111-1112 | one frame never overshoots: the new value lies between the old value and the target |
| Orbit.PowBounds | script.js:1111 | the gap factor 0.95^n lies in (0, 1] |
| Orbit.ApproachGap | script.js:1111-1112 | after `n` frames toward a fixed target the gap is 0.95^n of the initial gap |
| Orbit.ApproachMonotone | script.js:1111-1112 | every frame stays between the start and the target, and the distance to the target never grows |
| Orbit.ApproachAbsGap | script.js:1111-1112 | the distance to the target after `n` frames is 0.95^n of the initial distance |
| Orbit.Bernoulli | script.js:1111 | 0.95^n · (1 + n/20) ≤ 1, the bound behind the frame count |
| Orbit.FramesWithin | script.js:1111-1112 | a frame count that exceeds 20 times the initial distance divided by the tolerance |
| Orbit.PowSmall | script.js:1111 | past that count, 0.95^n times the distance is below the tolerance |
| Orbit.Converges | script.js:1102-1112 | from `FramesWithin` frames on, the eased value is within the tolerance of a fixed target |
| Orbit.OrbitController.constructor | script.js:570-578 | all angles and positions start at zero, with auto-rotation on and the sphere out of view |
| Orbit.OrbitController.MouseMove | script.js:1037-1052 | while the button is down the target yaw moves by 0.005 per pixel and the pitch by 0.003 per pixel, clamped to ±pi/3; the last pointer position is always recorded; nothing else changes |
| Orbit.OrbitController.MouseDown | script.js:1054-1058 | starts a drag and stops auto-rotation; nothing else changes and the pitch invariant is kept |
| Orbit.OrbitController.MouseUp | script.js:1060-1064 | ends the drag; nothing else changes and the pitch invariant is kept |
| Orbit.OrbitController.TouchStart | script.js:1069-1077 | a single-finger touch starts a drag at its position; other touches change nothing; the pitch invariant is kept |
| Orbit.OrbitController.TouchMove | script.js:1079-1095 | a single-finger drag moves yaw by 0.008 and pitch by 0.005 per pixel, with pitch clamped to ±pi/3, and re-anchors at the touch; otherwise nothing changes |
| Orbit.OrbitController.TouchEnd | script.js:1097-1100 | ends the drag; nothing else changes and the pitch invariant is kept |
| Orbit.OrbitController.RotateToProject | script.js:852-872 | the target becomes the given facing angles, with pitch clamped to ±pi/2.5, and auto-rotation stops |
| Orbit.OrbitController.ResumeAutoRotate | script.js:1063 | the delayed callback turns auto-rotation back on, changes nothing else and keeps the pitch invariant; the same callback is scheduled at script.js:870 (after 5000 ms) and 1099 (after 2000 ms) |
| Orbit.OrbitController.SetInView | script.js:644-648 | the observer records whether the container is in view, changes nothing else and keeps the pitch invariant |
| Orbit.OrbitController.Animate | script.js:1102-1112 | out of view nothing changes; in view the target yaw drifts by 0.0008 when auto-rotating, and both current angles take one easing step; the pitch invariant is kept |
| Overlay.Opacity | script.js:962-966 | opacity is in [0, 1]: zero up to depth 0.3, one from depth 1.8, and linear in between |
| Overlay.OpacityMonotone | script.js:962-966 | a nearer card is never more transparent |
| Overlay.ShownIff | script.js:995-1001 | a card is shown exactly when its depth exceeds 0.375 |
| Overlay.ActiveIff | script.js:1003-1006 | the indicator item is active exactly when the depth exceeds 1.05 |
| Overlay.Scale | script.js:968-970 | the card scale is never below 0.4 |
| Overlay.ScaleMonotone | script.js:968-970 | nearer cards are drawn at least as large |
| Overlay.ScaleAtDesktop | script.js:968-970 | at the desktop camera distance a front card has scale 1, and no card on the sphere is larger |
| Overlay.ScaleZoom | script.js:968-970 | for any card on the sphere, a camera farther away never draws it larger |
| Overlay.ScaleFront | script.js:968-970 | a card at the front of the sphere has scale equal to the zoom factor `6 / cameraZ`, floored at 0.4 |
| Overlay.ZIndex | script.js:993 | the stacking order is `(z + 5) * 20` rounded down: the largest integer not above it |
| Overlay.ZIndexMonotone | script.js:993 | nearer cards stack at least as high, and strictly higher once the depths differ by 0.05 |
| Overlay.ScreenX | script.js:959 | device x of -1, 0 and 1 map to the container's left edge, centre and right edge |
| Overlay.ScreenY | script.js:960 | device y of 1, 0 and -1 map to the container's top edge, centre and bottom edge |
| Overlay.ScreenInRect | script.js:959-960 | device coordinates in [-1, 1] land inside the container rectangle, with the edges mapped to its edges and the y axis flipped |
| Overlay.CardStyleFor | script.js:948-1007 | one frame's writes for a card: opacity, scale and stacking order are exactly `Opacity`, `Scale` and `ZIndex` of the depth; visible exactly when depth > 0.375, indicator active exactly when depth > 1.05 (which implies visible), opacity and scale bounds, and position equal to the projected point minus the viewport's card offset |

## Left out

- DOM and Three.js effects: setting classes, text, styles and scene objects. Only the values written are modelled.
- Timers. Each `setTimeout` that re-enables auto-rotation is the explicit call `ResumeAutoRotate`; the typing loop's timer is the `delay` of each `Step`; the 1000 ms delay before the first step is not modelled.
- The terminal's HTML before the first step is a constructor parameter.
- `localStorage` persistence of the theme, and the theme chosen at start-up from storage and `prefers-color-scheme`.
- The Konami easter egg's visual effect, `activateEasterEgg`.
- The filter's `fadeInUp` card animation.
- Orbit.OrbitController.RotateToProject: the `atan2` angles that face a project toward the camera are parameters, because trigonometry is not modelled.
- Overlay.CardStyleFor: the card tilt (`atan2`-based `rotateY`/`rotateX`), the rotation of each card's point by the current angles, and the camera projection are not modelled; the rotated depth and projected coordinates are inputs.
- Triangle hover, facet displacement and facet opacity: Three.js geometry.
- Particles: Three.js geometry whose positions come from `Math.random`, so they are nondeterministic, and from transcendental functions.
- The Fibonacci placement of the projects on the sphere: it is computed with `Math.acos`, `Math.sin` and `Math.cos`, and transcendental functions are not modelled.
- The pointer's device coordinates for the ray caster (`mouse.x`, `mouse.y` in `onMouseMove`): they only feed the hover effect.
- Start-up and `onWindowResize` use the same breakpoints, so both are modelled by the single `Viewport.CameraPresetFor`. The renderer resize and the aspect ratio are left out.
- Navbar, scroll reveal, skill bars, custom cursor, smooth scrolling and debouncing: not part of this model.
- Floating point. The sphere code is modelled over exact reals, so rounding in the easing and opacity arithmetic is not captured.
- Orbit.OrbitController.Animate: the yaw is unbounded in the source and in the model; rendering and the per-frame calls after the rotation update are left out.
- Orbit.Smooth: its own contract states only the gap relation; the no-overshoot property is the separate lemma `SmoothBetween`.
