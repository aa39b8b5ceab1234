# Parallax engine, contact form and word splitter of a video-editor portfolio site

This project models the three pieces of the portfolio site that hold logic of
their own, and proves what they promise.

- **The parallax engine** (`src/lib/animation/parallax-engine.js`). It covers
  the `clamp` and `throttle` helpers and the `ParallaxEngine` class.
  - Pointer and device-orientation samples set a target position in [-1, 1]
    on each axis.
  - Every animation frame moves the current position part of the way towards
    the target, and snaps onto it once the gap is below 0.0001.
  - `getOffset` reads the position scaled by `range` and clamped to it.
  - The engine is a lifecycle object: `init`, an asynchronous gyroscope
    permission step, and a terminal `destroy`.
  - Both input handlers sit behind a leading-plus-one-trailing rate limiter.
- **The contact form of the footer** (`src/components/Footer.jsx`).
  - `validateEmail` is an anchored regular expression.
  - `validateForm` builds and stores the error map for the required fields.
  - `handleSubmit` goes from "submitting" to "submitted" and clears the form.
- **The word splitter of `ScrollReveal`** (`src/components/ui/ScrollReveal.jsx`).
  It splits the text on `/(\s+)/` and wraps each word in an element keyed by
  its index.

Files and modules:

| file | module | contents |
|---|---|---|
| `wrappers.dfy` | `Wrappers` | `Option` |
| `js_text.dfy` | `JsText` | the `\s` class of ECMAScript regular expressions and `String.prototype.trim` |
| `parallax_math.dfy` | `ParallaxMath` | `clamp`, the input normalisation, the smoothing step and its convergence, the `getOffset` read-out of one axis |
| `throttle.dfy` | `Throttling` | the `throttle` closure as a class whose fields are the closure variables |
| `parallax_engine.dfy` | `Parallax` | the `ParallaxEngine` class and the sequences behind the finding below |
| `footer.dfy` | `Footer` | the e-mail check, the error map and the `ContactForm` state |
| `scroll_reveal.dfy` | `ScrollReveal` | the split and the render map |

How the host environment is modelled:

- **Device capabilities** are a constructor input, and so is the orientation
  API the platform offers: none, events without a prompt, or events behind
  `requestPermission()`.
- **The clock** is a `now` parameter.
- **Registrations.** Event listeners and the requested animation frame are
  boolean fields. A throttle's pending timeout is an `Option` slot; its timer
  firing is the `Fire` method.
- **The permission request.** Each `await requestPermission()` is its platform
  answer, passed as a parameter: a resolved state or a rejection. In
  `_initGyroscope` the request and its continuation are two methods, so that
  other calls can run between them.
- **Numbers** are `real`.
- **The engine's whole state** is `ParallaxEngine.State()`, a value of the
  datatype `EngineState`. Every public method states its new state as
  `old(State())` with the changed fields updated, so "nothing else changes"
  is part of each contract. The two internal halves of `Destroy`, `Stop` and
  `RemoveInputs`, instead list the fields they change in their `modifies`
  clauses.
- **Invariants.** Every public method preserves `Valid()`. The engine keeps
  `Released()` (a destroyed engine holds no orientation listener and no
  trailing orientation call) except where the finding below breaks it.

What `Valid()` says:

- The animation loop runs exactly while the engine is active.
- An inactive engine sits at the origin.
- Only an active desktop engine has the pointer listener or a trailing pointer
  call.
- Reduced motion keeps the engine inactive.
- A destroyed engine is inactive.

Every public method leaves `isDestroyed` as it found it, except `Destroy`,
which sets it. So `IsRunning()` stays false after a destroy. (`Stop`, the
internal half of `Destroy`, sets it as well.)

## Model

| member | source | states |
|---|---|---|
| `JsText.IsWhitespace` | src/components/Footer.jsx:14 | The `\s` class of ECMAScript regular expressions (WhiteSpace and LineTerminator code points), which is also the set `trim` removes (Footer.jsx:20, 24) and the set `split(/(\s+)/)` cuts on (ScrollReveal.jsx:41). No ASCII letter or digit, and neither `@` nor `.`, is in it. |
| `JsText.TrimStart` | src/components/Footer.jsx:20 | The result is a suffix of the input. Only whitespace was cut, and the result is empty or starts with a non-whitespace character. |
| `JsText.TrimEnd` | src/components/Footer.jsx:20 | The result is a prefix of the input. Only whitespace was cut, and the result is empty or ends with a non-whitespace character. |
| `JsText.Trim` | src/components/Footer.jsx:20 | `trim` never lengthens a string. Its result is empty, or starts and ends with a non-whitespace character. |
| `JsText.TrimCutsWhitespace` | src/components/Footer.jsx:24 | The input is the trimmed string with only whitespace before and after it. |
| `JsText.TrimStartBlank` | src/components/Footer.jsx:20 | Cutting leading whitespace leaves nothing exactly when the string is all whitespace. |
| `JsText.TrimEndBlank` | src/components/Footer.jsx:20 | Cutting trailing whitespace leaves nothing exactly when the string is all whitespace. |
| `JsText.TrimBlank` | src/components/Footer.jsx:20 | `s.trim()` is empty exactly when `s` is all whitespace (or empty). |
| `Footer.ValidateEmail` | src/components/Footer.jsx:13-15 | The anchored test `/^[^\s@]+@[^\s@]+\.[^\s@]+$/`. An accepted address has at least five characters and an `@`, and does not start with `@`. Its exact language is stated by `Footer.ValidateEmailIsShape`. |
| `Footer.IndexOf` | src/components/Footer.jsx:14 | Returns the position of the first `@`, or the length when there is none. There is no `@` before that position. |
| `Footer.IndexOfFirst` | src/components/Footer.jsx:14 | Any position holding the first occurrence is the one `IndexOf` returns. |
| `Footer.LayoutShape` | src/components/Footer.jsx:14 | A string whose only `@` sits at a position `k > 0`, with a dot at least two places after it and at least one character after the dot, and no whitespace, is local `@` domain `.` suffix. |
| `Footer.LayoutValid` | src/components/Footer.jsx:14 | Such a string passes `validateEmail`. |
| `Footer.ValidEmailHasShape` | src/components/Footer.jsx:13-15 | Every address `validateEmail` accepts is local `@` domain `.` suffix. The three parts are non-empty and contain no whitespace and no `@`. |
| `Footer.ShapeIsValidEmail` | src/components/Footer.jsx:13-15 | Every string of that shape is accepted, including a domain that holds further dots. |
| `Footer.ValidateEmailIsShape` | src/components/Footer.jsx:13-15 | `validateEmail` holds if and only if the string has the local `@` domain `.` suffix shape. |
| `Footer.FormErrors` | src/components/Footer.jsx:17-33 | The `newErrors` map, built one required-field check after the other. What it contains is stated by `Footer.FormErrorsMeaning`. |
| `Footer.FormErrorsMeaning` | src/components/Footer.jsx:17-35 | The map has keys only for name, email and platform. The name error appears iff the name trims to empty. The email error appears iff the untrimmed address lacks the shape: "required" when it trims to empty, otherwise "invalid". The platform error appears iff no platform is chosen. The map is empty iff all three fields are right. |
| `Footer.EmptyExactlyWhenSizeZero` | src/components/Footer.jsx:35 | `Object.keys(m).length === 0` holds exactly for the empty map. |
| `Footer.ContactForm.constructor` | src/components/Footer.jsx:7-10 | The initial state is five empty fields, no errors, not submitting and not submitted. |
| `Footer.ContactForm.Edit` | src/components/Footer.jsx:167-223 | The edited field takes the typed value and the other four keep theirs. |
| `Footer.ContactForm.ValidateForm` | src/components/Footer.jsx:17-36 | The stored error map is replaced by the one the current data calls for. The result is true iff that map is empty. |
| `Footer.ContactForm.HandleSubmit` | src/components/Footer.jsx:38-43 | The error map is stored. Invalid data changes nothing else. Valid data sets `isSubmitting` and starts one pending delivery. The form data and `isSubmitted` are untouched. |
| `Footer.ContactForm.FinishSubmission` | src/components/Footer.jsx:46-50 | After the delay, the form is no longer submitting and is submitted, and all five fields are empty again. |
| `ScrollReveal.WordLength` | src/components/ui/ScrollReveal.jsx:41 | Gives the longest whitespace-free prefix; what follows it is whitespace or the end. |
| `ScrollReveal.RunLength` | src/components/ui/ScrollReveal.jsx:41 | Gives the longest all-whitespace prefix; what follows it is non-whitespace or the end. |
| `ScrollReveal.WordLengthUnique` | src/components/ui/ScrollReveal.jsx:41 | The word boundary is the only cut with that property. |
| `ScrollReveal.RunLengthUnique` | src/components/ui/ScrollReveal.jsx:41 | The run boundary is the only cut with that property. |
| `ScrollReveal.SplitWs` | src/components/ui/ScrollReveal.jsx:41 | `text.split(/(\s+)/)` yields an odd number of tokens: words alternate with the captured runs. The full shape is stated by `ScrollReveal.SplitWsShape`. |
| `ScrollReveal.SplitWsShape` | src/components/ui/ScrollReveal.jsx:41 | The tokens of `text.split(/(\s+)/)` concatenate back to the text. There is an odd number of them. Even positions hold whitespace-free words, and only the first and last word may be empty. Odd positions hold non-empty whitespace runs. |
| `ScrollReveal.SplitWsUnique` | src/components/ui/ScrollReveal.jsx:41 | The split is the only token list of that shape that concatenates to the text, so the shape fully characterises it. |
| `ScrollReveal.TextOf` | src/components/ui/ScrollReveal.jsx:40 | A string child is the text as it is. Any other child gives the empty string. |
| `ScrollReveal.IsSpaceRun` | src/components/ui/ScrollReveal.jsx:42 | `word.match(/^\s+$/)` holds exactly when the token is non-empty and its leading whitespace run (`RunLength`) is the whole token. |
| `ScrollReveal.Render` | src/components/ui/ScrollReveal.jsx:42-47 | The piece carries the token's text unchanged. It is a bare whitespace run exactly when the token is non-empty and all whitespace. Otherwise it is a word keyed by the token's index. |
| `ScrollReveal.RenderAlternates` | src/components/ui/ScrollReveal.jsx:42 | In a split of that shape, the `/^\s+$/` test holds exactly at the odd positions. |
| `ScrollReveal.TextsOfRendered` | src/components/ui/ScrollReveal.jsx:41-48 | Pieces carrying the tokens' texts in order concatenate like the tokens. |
| `ScrollReveal.SplitText` | src/components/ui/ScrollReveal.jsx:39-49 | There is one piece per token, in order, with the token's text unchanged. Whitespace runs are emitted as they are, at exactly the odd positions. Every other token, empty ones included, is a word keyed by its index. |
| `ScrollReveal.SplitTextRoundTrip` | src/components/ui/ScrollReveal.jsx:40-48 | The rendered texts in order give back the whole text. |
| `ScrollReveal.SplitTextNotText` | src/components/ui/ScrollReveal.jsx:40 | A child that is not a string renders as a single empty word with key 0. |
| `ParallaxMath.Clamp` | src/lib/animation/parallax-engine.js:98-100 | Given `min <= max`, the result lies in [min, max], and equals the value when the value is already inside. With `min > max` the result is `max`, as `Math.min(Math.max(v, min), max)` gives. |
| `ParallaxMath.NormalizePointer` | src/lib/animation/parallax-engine.js:274-275 | `client / size * 2 - 1` is 0 exactly at the centre, -1 at the left or top edge and 1 at the right or bottom edge. |
| `ParallaxMath.PointerInViewport` | src/lib/animation/parallax-engine.js:274-275 | For a position inside the viewport, the normalised pointer lies in [-1, 1]. |
| `ParallaxMath.UnitFactor` | src/lib/animation/parallax-engine.js:274 | A factor that scales the viewport size to a position inside it lies in [0, 1]. |
| `ParallaxMath.TiltAxis` | src/lib/animation/parallax-engine.js:293-295 | The tilt target always lies in [-1, 1]. It is linear within 30 degrees of the resting angle and saturates at ±1 beyond. |
| `ParallaxMath.LerpStep` | src/lib/animation/parallax-engine.js:305-311 | One frame on one axis snaps onto the target exactly when the lerped gap `(1 - damping) * (target - current)` is below 0.0001. Otherwise the gap has shrunk by exactly the factor `1 - damping` and is at least 0.0001. |
| `ParallaxMath.LerpStepApproaches` | src/lib/animation/parallax-engine.js:305-311 | For a damping in [0, 1], the new position lies between the old one and the target, and the gap never grows. For a positive damping, the gap strictly shrinks while there is one. |
| `ParallaxMath.SettleStaysInBox` | src/lib/animation/parallax-engine.js:302-314 | Positions in [-1, 1] that chase a target in [-1, 1] stay in [-1, 1] for any number of frames. |
| `ParallaxMath.FrameGap` | src/lib/animation/parallax-engine.js:306-311 | One frame either closes the gap or scales it by `1 - damping`. |
| `ParallaxMath.GapStep` | src/lib/animation/parallax-engine.js:306-311 | The convergence bound carries over from one frame to the next. |
| `ParallaxMath.FrameBound` | src/lib/animation/parallax-engine.js:306-311 | If a gap is within the convergence bound for `n` frames, the gap after one more frame is within the bound for `n + 1` frames. |
| `ParallaxMath.SettleGapStep` | src/lib/animation/parallax-engine.js:302-314 | The convergence bound for `n` frames gives the bound for `n + 1` frames. |
| `ParallaxMath.SettleGapBound` | src/lib/animation/parallax-engine.js:302-314 | After `n` frames, the gap times `1 + n * damping` is at most the initial gap. |
| `ParallaxMath.SettleConverges` | src/lib/animation/parallax-engine.js:309-311 | Once `n * damping * 0.0001` covers the initial gap, `n` frames land exactly on the target. The snap makes the loop stop moving. |
| `ParallaxMath.SettlesWithinFramesPerDamping` | src/lib/animation/parallax-engine.js:309-311 | Inside the [-1, 1] box, every `n` with `n * damping >= 20000` lands exactly on the target. |
| `ParallaxMath.AxisOffset` | src/lib/animation/parallax-engine.js:326 | For `range >= 0`, a requested axis lies in [-range, range], and is `current * range` while the position is in [-1, 1]. For a negative range it is `range`. |
| `Throttling.Throttle.constructor` | src/lib/animation/parallax-engine.js:57-59 | A new throttle has `lastTime` 0 and no pending call. |
| `Throttling.Throttle.Call` | src/lib/animation/parallax-engine.js:61-79 | When the window has run out, the call goes through at once, `lastTime` becomes `now` and any pending call is dropped. Otherwise nothing is invoked, `lastTime` stays, and the first call of the window is kept as the trailing call with the remaining delay. Later calls neither invoke nor replace it. |
| `Throttling.Throttle.Fire` | src/lib/animation/parallax-engine.js:73-77 | The timer hands over the arguments that scheduled it, sets `lastTime` to `now` and empties the slot. |
| `Throttling.Throttle.Cancel` | src/lib/animation/parallax-engine.js:81-86 | The pending slot is empty afterwards and `lastTime` is unchanged. |
| `Parallax.ParallaxEngine.constructor` | src/lib/animation/parallax-engine.js:106-144 | Missing settings take the defaults 0.08, 30, true and 16. Positions are at the origin, the engine is inactive and not destroyed, the permission is "prompt", there are no listeners, and there are two fresh, distinct throttles with the configured wait. |
| `Parallax.ParallaxEngine.IsRunning` | src/lib/animation/parallax-engine.js:339-341 | On an engine that keeps its invariant, the engine runs exactly while it is active. A running engine is not destroyed, not under reduced motion, and has its next frame requested. |
| `Parallax.ParallaxEngine.GetOffset` | src/lib/animation/parallax-engine.js:321-333 | Each requested axis ("x", "y" or "both") is `AxisOffset` of that axis. An unrequested axis, and both axes for any other direction, are exactly 0. |
| `Parallax.ParallaxEngine.Update` | src/lib/animation/parallax-engine.js:302-314 | An inactive engine changes nothing. Otherwise each axis takes one `LerpStep` towards an unchanged target, and the next frame is requested. |
| `Parallax.ParallaxEngine.AnimationFrame` | src/lib/animation/parallax-engine.js:313 | A requested frame runs `_update`. The invariant holds again afterwards, and only the two positions move. |
| `Parallax.ParallaxEngine.InitGyroscope` | src/lib/animation/parallax-engine.js:184-207 | Without orientation events nothing happens. Without a permission API, the orientation listener is attached and the permission becomes "granted". Behind a permission API, the request is left outstanding. |
| `Parallax.ParallaxEngine.Init` | src/lib/animation/parallax-engine.js:150-179 | A destroyed or active engine, or one under reduced motion, changes nothing. Otherwise the engine becomes active, a low-end device switches to damping 0.15, the pointer listener is attached exactly on a desktop, and gyroscope setup starts exactly on a mobile device that wants it. The first frame is requested. Afterwards the engine runs exactly when it was not destroyed and reduced motion is off. |
| `Parallax.ParallaxEngine.CompleteInitGyroscope` | src/lib/animation/parallax-engine.js:189-200 | As written, the platform's answer is recorded, and a rejection is recorded as "denied". A grant attaches the orientation listener even on a destroyed engine. |
| `Parallax.ParallaxEngine.CompleteInitGyroscopeChecked` | src/lib/animation/parallax-engine.js:189-200 | The corrected continuation: an answer after `destroy` is dropped, and `Released()` is kept. |
| `Parallax.ParallaxEngine.RequestGyroscopePermission` | src/lib/animation/parallax-engine.js:216-231 | As written, the promise rejects with a `ReferenceError` exactly on a platform without orientation events, because `DeviceOrientationEvent?.requestPermission` reads the undeclared name. It fulfils with true exactly for a gated platform that grants. A resolved answer is recorded, and a grant attaches the listener. A rejection, or a platform without the permission API, changes nothing. |
| `Parallax.ParallaxEngine.RequestGyroscopePermissionChecked` | src/lib/animation/parallax-engine.js:216-231 | The corrected request: it still rejects exactly where orientation events are missing. A destroyed engine changes nothing and fulfils with false, and `Released()` is kept. |
| `Parallax.ParallaxEngine.Destroy` | src/lib/animation/parallax-engine.js:236-261 | The first call sets `isDestroyed` and clears `isActive`, the animation frame and both listeners. It empties both throttle slots, zeroes the four positions and establishes `Released()`. A second call changes nothing. Either way the engine is destroyed and not running afterwards. |
| `Parallax.ParallaxEngine.RemoveInputs` | src/lib/animation/parallax-engine.js:248-255 | Both listeners are removed and both pending calls are cancelled, without touching either throttle's window. |
| `Parallax.ParallaxEngine.Stop` | src/lib/animation/parallax-engine.js:239-259 | The engine is destroyed and inactive with no frame requested, at the origin. |
| `Parallax.ParallaxEngine.HandleMouseMove` | src/lib/animation/parallax-engine.js:268-276 | An inactive engine ignores the event. Otherwise the targets become `NormalizePointer` of the pointer position on each axis. |
| `Parallax.ParallaxEngine.HandleDeviceOrientation` | src/lib/animation/parallax-engine.js:283-296 | An inactive engine, or a sample missing `beta` or `gamma`, changes nothing. Otherwise the targets become `TiltAxis(gamma, 0)` and `TiltAxis(beta, 45)`. |
| `Parallax.ParallaxEngine.DispatchMouseMove` | src/lib/animation/parallax-engine.js:61-79 | A `mousemove` through the throttle either moves the target at once and restarts the window, or keeps the first event of the window as the trailing call. |
| `Parallax.ParallaxEngine.MouseTimerFires` | src/lib/animation/parallax-engine.js:73-77 | The trailing pointer event is handled with the viewport as it is when the timer fires. |
| `Parallax.ParallaxEngine.DispatchDeviceOrientation` | src/lib/animation/parallax-engine.js:61-79 | A `deviceorientation` event through the throttle either reaches the handler at once or is kept as the trailing call. |
| `Parallax.ParallaxEngine.OrientationTimerFires` | src/lib/animation/parallax-engine.js:73-77 | The trailing tilt sample reaches the handler and the window restarts. |
| `Parallax.ParallaxEngine.UpdateConfig` | src/lib/animation/parallax-engine.js:355-358 | Only the given damping and range are overwritten. Every other field, positions and lifecycle flags included, is unchanged. |
| `Parallax.LateSetupGrantLeaksListener` | src/lib/animation/parallax-engine.js:191-195 | Init, then destroy, then a grant of the setup prompt leaves a destroyed engine with an orientation listener. |
| `Parallax.LateSetupGrantDropped` | src/lib/animation/parallax-engine.js:191-195 | The same sequence with the corrected continuation leaves the destroyed engine released. |
| `Parallax.LateRequestGrantLeaksListener` | src/lib/animation/parallax-engine.js:219-223 | A granted request on a destroyed engine attaches the listener and fulfils with true. |
| `Parallax.LateRequestGrantRefused` | src/lib/animation/parallax-engine.js:219-223 | The corrected request on a destroyed engine attaches nothing and fulfils with false. |

## Left out

- `detectCapabilities` and `getCapabilities` (parallax-engine.js:33-49 and 347-349). They read `matchMedia` and `navigator`. Their result is the `Capabilities` constructor input.
- `console.log` and `console.error` calls.
- The DOM's `addEventListener`, `requestAnimationFrame`, `setTimeout` and `Date.now`. They are boolean fields, the throttle's pending slot and a `now` parameter.
- IEEE-754 arithmetic, including NaN and infinities. Positions, damping and range are `real`.
- Parallax.ParallaxEngine.HandleMouseMove: requires a positive viewport width and height. For a zero-size window the source would divide by zero and store `Infinity` or `NaN`.
- Parallax.ParallaxEngine.DispatchMouseMove: has the same positive-viewport requirement.
- Parallax.ParallaxEngine.MouseTimerFires: has the same positive-viewport requirement.
- Throttle timing in whole milliseconds. A fractional `throttleMs` is not modelled.
- `timeoutId` truthiness. A timer handle is taken to be truthy, as browsers return positive ids.
- The `this` binding of the throttled wrapper. It plays no role once the handlers are bound.
- Parallax.ParallaxEngine.RequestGyroscopePermission: its `await` is one step, so no other engine call can run between the request and its answer. Running it after `destroy` still covers an answer that arrives after `destroy`.
- Parallax.ParallaxEngine.RequestGyroscopePermissionChecked: its `await` is one step in the same way.
- Exceptions. An exception thrown by `requestPermission` is the `Rejected` outcome. The `ReferenceError` that `requestGyroscopePermission` throws on a platform without `DeviceOrientationEvent` is its result `ThrewReferenceError`, a rejected promise. Nothing else in the core throws.
- The 1500 ms simulated network delay of `handleSubmit`. It is the gap between `HandleSubmit` and `FinishSubmission`, counted by the ghost field `pendingSubmissions`.
- React's asynchronous state updates and re-renders.
- The JSX rendering of the errors and of the split words. A rendered word is the datatype value `Word(text, key)`.
- JavaScript strings as UTF-16 code units. A string is a sequence of Dafny characters, and the `\s` class lists the code points ECMAScript puts in it.
- The GSAP and ScrollTrigger timelines (including `ScrollReveal`'s effect hook), the `Parallax.jsx` wrapper component, the WebGL liquid effect and the static page components. They are declarative library calls and markup with no logic of their own.

## Findings

| source | as written | input that shows it | evidently intended | confidence | as-written member | corrected member |
|---|---|---|---|---|---|---|
| src/lib/animation/parallax-engine.js:191-195 | After `await requestPermission()`, `_initGyroscope` records the answer and on "granted" adds the `deviceorientation` listener, without looking at `isDestroyed` | On a phone whose platform gates orientation events: `init()`, then `destroy()` while the prompt is open, then the user grants | `destroy` removes every listener for good, so a destroyed engine never gains one again | not executed | `Parallax.LateSetupGrantLeaksListener` (with `Parallax.ParallaxEngine.CompleteInitGyroscope`) | `Parallax.LateSetupGrantDropped` (with `Parallax.ParallaxEngine.CompleteInitGyroscopeChecked`) |
| src/lib/animation/parallax-engine.js:219-223 | `requestGyroscopePermission` adds the listener and fulfils with true on "granted", whether or not the engine was destroyed | On a permission-gated platform: `destroy()`, then `requestGyroscopePermission()` answered with "granted" | A destroyed engine attaches nothing and fulfils with false | not executed | `Parallax.LateRequestGrantLeaksListener` (with `Parallax.ParallaxEngine.RequestGyroscopePermission`) | `Parallax.LateRequestGrantRefused` (with `Parallax.ParallaxEngine.RequestGyroscopePermissionChecked`) |
