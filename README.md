# Musician portfolio site: state logic in Dafny

A Dafny model of the four pieces of logic on a musician's portfolio site. Everything else on the site is declarative layout.

- **Particle background** (`three_background.dfy`, module `ThreeBackground`):
  - Two flat coordinate buffers of `3000 * 3` reals are filled once with a Fibonacci sphere of radius 1.6.
  - Every frame rewrites the displayed buffer in place. Each point's base coordinates are multiplied by one per-point radial scale.
  - The pointer target and the camera follow their goals by exponential smoothing.
  - The rotation is recomputed from the clock.
  - The effect's resize handler and cleanup are modelled as the code writes them.
  - The component is the class `ParticleField`, with `array<real>` buffers and one method per handler.
- **Track player** (`discography.dfy`, module `Discography`):
  - The pure transition `ToggleTrack` works on `(activeTrack, isPlaying)`.
  - The class `AudioRef` holds the audio element and an ordered log of the calls made on it.
  - Its methods are the reconciliation effect and the unmount cleanup.
- **Selected-works accordion** (`projects.dfy`, module `Projects`): `ToggleProject` on an optional id. Every render decision of a card is a function of that id.
- **Concept generator** (`sonic_lab.dfy`, module `SonicLab`):
  - The class `Lab` runs the submit handler's sequence: ignore a blank mood, otherwise loading, then the reply or the fallback, then not loading.
  - Pure functions cover JavaScript's `trim`, the three output regions, the submit-disabled condition and the accent-colour fallback.
  - The remote call is an input: `Success(concept)` or `Failure`.
- **Shared records** (`types.dfy`, module `Types`): the records of `types.ts` and an `Option` type for `T | null` and optional properties.

Inputs and modelling choices:

- The host's `Math.sin`, `Math.cos`, `Math.acos` and `Math.sqrt` are arbitrary `real -> real` functions, held in a `Trig` record.
- The bounds `|sin|, |cos| <= 1` and the Pythagorean identity are lemma preconditions.
- Elapsed time, pointer coordinates, viewport size, device pixel ratio and whether the mount element exists are all inputs.

The code lacks four safeguards a reader might expect. The model follows the code as written:

- The resize handler has no guard against a zero dimension. `window.innerWidth / window.innerHeight` is modelled as a JavaScript quotient that can be `Infinity` or `NaN` (`Divide`, `ParticleField.HandleResize`).
- The frame callback requests the next frame right after reading the clock, and the cleanup never cancels it. There is no "active" flag, so a frame after cleanup still runs and requests another (`FrameAfterCleanup`).
- The cleanup has no dispose-once protection. Run a second time, it disposes again, or it throws when it tries to remove a canvas that is no longer a child of the mount element (`ParticleField.Cleanup`, `CleanupTwice`).
- The resize handler does not recompute the pixel ratio. It is capped once, at mount (`PixelRatio`).

## Model

| member | source | states |
|---|---|---|
| Projects.IsExpanded | components/Projects.tsx:55-100 | definition: a card renders expanded exactly when the expanded id is that card's id, the test every branch of the card repeats |
| Projects.ExpandedCount | components/Projects.tsx:34-100 | the number of expanded cards is at most the number of cards, and it is zero exactly when no card of the list is expanded |
| Projects.ToggleProject | components/Projects.tsx:36-38 | the new expanded id is null exactly when the clicked card was the expanded one; otherwise it is the clicked card's id |
| Projects.ToggleTwiceFromNone | components/Projects.tsx:36-38 | from the collapsed state, clicking the same card twice collapses it again |
| Projects.ToggleReplaces | components/Projects.tsx:36-38 | clicking another card replaces the expanded one; toggling the expanded card off and on restores it |
| Projects.RenderCard | components/Projects.tsx:55-100 | a card shows its description and link exactly when it is expanded; the highlight goes with it, the hover lift only when it is not expanded, and the indicator is Minus exactly when it is expanded |
| Projects.Click | components/Projects.tsx:63-133 | a click on the details link leaves the expanded id unchanged (propagation is stopped); a click on the card body toggles that card |
| Projects.ClickFlipsOnlyThatCard | components/Projects.tsx:63-100 | clicking a card flips its own details and leaves every other card collapsed |
| Projects.WorksIdsDistinct | components/Projects.tsx:6-31 | the three fixed project ids are pairwise distinct |
| Projects.AtMostOneExpanded | components/Projects.tsx:34-38 | for any card list with distinct ids, at most one card renders expanded, and exactly one does when the expanded id belongs to the list |
| Projects.WorksShowAtMostOneDescription | components/Projects.tsx:34-100 | in the fixed grid at most one description is shown at a time |
| Discography.ToggleTrack | components/Discography.tsx:49-56 | the clicked id becomes active in both branches; the active row flips only the playing flag, any other row starts playing |
| Discography.ShowsPause | components/Discography.tsx:118-119 | definition: a row shows the Pause icon exactly when it is the active track and the player is playing; it shows Play otherwise |
| Discography.ToggleActivates | components/Discography.tsx:49-56 | after a click the row is active, and its Pause icon is shown exactly when it was not shown before |
| Discography.ToggleTwiceRestores | components/Discography.tsx:50-51 | clicking the active row twice restores the original selection |
| Discography.PauseIconUnique | components/Discography.tsx:118-119 | at most one row shows the Pause icon |
| Discography.Find | components/Discography.tsx:31 | `find` returns the first track with the id, and nothing exactly when no track has it |
| Discography.SourceFor | components/Discography.tsx:29-32 | the effect goes on with a source exactly when the active id is truthy, a listed track has it, and that track's source is truthy; it returns early otherwise |
| Discography.Reconciled | components/Discography.tsx:34-46 | after an early return the element is unchanged; otherwise the element holds the source and is playing exactly when `isPlaying` |
| Discography.ReconcileCalls | components/Discography.tsx:34-46 | no calls on an early return; otherwise the last call is play or pause as `isPlaying` says, an element is created exactly when none existed, and the source is reassigned exactly when it differed |
| Discography.SourceChangeOrder | components/Discography.tsx:36-46 | a source change is pause, reassign, reload, then play or pause, in that order |
| Discography.ReconcileIdempotent | components/Discography.tsx:28-47 | running the effect again with the same selection changes nothing and repeats only the final play or pause |
| Discography.TrackIdsDistinct | components/Discography.tsx:6-12 | the five track ids are pairwise distinct |
| Discography.TracksHaveSources | components/Discography.tsx:6-12 | every listed track has a non-empty audio source |
| Discography.FindDistinct | components/Discography.tsx:31 | in a list with distinct ids, looking up the id at a position finds that position's track |
| Discography.ListedTracksPlayable | components/Discography.tsx:6-32 | selecting any listed track makes the effect use that track's source |
| Discography.AudioRef.constructor | components/Discography.tsx:17 | the ref starts empty, with no calls made |
| Discography.AudioRef.Reconcile | components/Discography.tsx:28-47 | the element and the call log after the effect are those that `Reconciled` and `ReconcileCalls` give for the selection |
| Discography.AudioRef.Unmount | components/Discography.tsx:19-26 | the element, if any, is paused and the ref is cleared |
| Discography.ClickRow | components/Discography.tsx:28-56 | clicking a listed row from any state leaves the element holding that row's source, playing exactly when the row shows the Pause icon; the calls appended to the log are exactly those the effect makes for the new selection on the old element |
| SonicLab.TrimStart | components/SonicLab.tsx:14 | the result is a suffix of the input, everything removed is white space or a line terminator, and the result does not start with one |
| SonicLab.TrimEnd | components/SonicLab.tsx:14 | the result is a prefix of the input, everything removed is white space or a line terminator, and the result does not end with one |
| SonicLab.Trim | components/SonicLab.tsx:14 | the trimmed mood is a contiguous part of the mood with only white space and line terminators cut from either side, and when non-empty it neither starts nor ends with one |
| SonicLab.TrimEmptyIffBlank | components/SonicLab.tsx:14 | `mood.trim()` is empty exactly when every character of the mood is white space or a line terminator |
| SonicLab.ConceptOf | components/SonicLab.tsx:19-31 | a successful reply's concept is kept; a failure gives the fixed fallback titled "L'Heure Bleue" |
| SonicLab.ShowsPlaceholder | components/SonicLab.tsx:84 | definition: the placeholder guard is no concept and not loading |
| SonicLab.ShowsLoading | components/SonicLab.tsx:90 | definition: the loading guard is `isLoading` alone |
| SonicLab.ShowsResult | components/SonicLab.tsx:98 | definition: the result guard is a concept and not loading |
| SonicLab.VisibleRegion | components/SonicLab.tsx:84-98 | for every `(concept, isLoading)` exactly one guard holds (placeholder, loading indicator or result), and it is the region shown |
| SonicLab.SubmitDisabled | components/SonicLab.tsx:71 | definition: the submit button is disabled exactly while loading or while the raw mood is the empty string (not its trim) |
| SonicLab.AccentColour | components/SonicLab.tsx:127-133 | the accent is `visualHex` when it is present and non-empty, and `#C4A968` otherwise; it is never empty |
| SonicLab.BlankMoodEnabledButIgnored | components/SonicLab.tsx:14-71 | a non-empty mood of white space leaves the submit button enabled, but the handler ignores it |
| SonicLab.FallbackAccent | components/SonicLab.tsx:24-31 | the fallback concept is shown with its own accent `#1e3a8a` |
| SonicLab.Lab.constructor | components/SonicLab.tsx:8-10 | empty mood, not loading, no concept |
| SonicLab.Lab.SetMood | components/SonicLab.tsx:65 | the input's change handler stores the typed value |
| SonicLab.Lab.Submit | components/SonicLab.tsx:14-17 | a mood whose trim is empty changes nothing; otherwise loading starts and the concept is cleared |
| SonicLab.Lab.Resolve | components/SonicLab.tsx:18-34 | the concept becomes the reply's or the fallback, and loading ends |
| SonicLab.Lab.HandleGenerate | components/SonicLab.tsx:12-35 | the handler runs exactly when the mood is not blank; it then ends not loading, with the reply's concept or the fallback, and with the result region shown; otherwise the state is unchanged |
| ThreeBackground.AcosArg | components/ThreeBackground.tsx:31 | the `acos` argument `-1 + 2i/count` lies in [-1, 1) and is -1 only for the first point |
| ThreeBackground.AcosArgIncreasing | components/ThreeBackground.tsx:31 | the `acos` argument grows strictly with the point index |
| ThreeBackground.Coordinate | components/ThreeBackground.tsx:31-38 | definition: coordinate `k` of sample `i` is `1.6 cos(theta) sin(phi)`, `1.6 sin(theta) sin(phi)` or `1.6 cos(phi)`, with `phi = acos(-1 + 2i/count)` and `theta = sqrt(count * pi) * phi` |
| ThreeBackground.CoordinateInRange | components/ThreeBackground.tsx:31-38 | with sine and cosine in [-1, 1], every sampled coordinate lies in [-1.6, 1.6] |
| ThreeBackground.SphereBuffer | components/ThreeBackground.tsx:26-47 | the sphere buffer has three entries per point, entry `3i + k` being coordinate `k` of sample `i` |
| ThreeBackground.SphereBufferByPoints | components/ThreeBackground.tsx:29-47 | a buffer holding each point's three coordinates at offsets `3i`, `3i+1`, `3i+2` is the sphere buffer |
| ThreeBackground.SampleSphere | components/ThreeBackground.tsx:29-47 | after the sampling loop both buffers equal the sphere buffer, element for element |
| ThreeBackground.OnSphere | components/ThreeBackground.tsx:34-38 | under the Pythagorean identity every sample lies at distance 1.6 from the origin |
| ThreeBackground.Distortion | components/ThreeBackground.tsx:102 | definition: `sin(2 ox + 1.5 t) * cos(2 oy + 1.5 t) * 0.15` of a base point's first two coordinates |
| ThreeBackground.PointScale | components/ThreeBackground.tsx:107 | definition: the scale of a point is one plus its distortion |
| ThreeBackground.WaveFrame | components/ThreeBackground.tsx:94-112 | a frame has as many entries as the base buffer, entry `3i + k` being the base entry times the scale of point `i` |
| ThreeBackground.WaveFrameAt | components/ThreeBackground.tsx:94-112 | in a frame, all three coordinates of a point are multiplied by the same scale of that point |
| ThreeBackground.WaveFrameByPoints | components/ThreeBackground.tsx:94-112 | a buffer holding every point's scaled coordinates at its offsets is the frame |
| ThreeBackground.ScaleInRange | components/ThreeBackground.tsx:102-107 | with sine and cosine in [-1, 1], every scale lies in [0.85, 1.15] |
| ThreeBackground.WaveRoundTrip | components/ThreeBackground.tsx:102-111 | every scale is positive, and dividing a written coordinate by its scale recovers the base coordinate |
| ThreeBackground.PointerOffset | components/ThreeBackground.tsx:69-72 | the offset is 0 exactly when the pointer is at the centre of the viewport, and the pointer position can be recovered from it |
| ThreeBackground.Smooth | components/ThreeBackground.tsx:83-84 | one step `v += (goal - v) * k`; for `k` in [0, 1] the new value lies between the old value and the goal |
| ThreeBackground.Follow | components/ThreeBackground.tsx:83-84 | `n` such steps toward a fixed goal; for `k` in [0, 1] the value stays between its start and the goal |
| ThreeBackground.SmoothGap | components/ThreeBackground.tsx:83-84 | one smoothing step multiplies the gap to the goal by `1 - k` |
| ThreeBackground.FollowGap | components/ThreeBackground.tsx:83-84 | after `n` steps toward a fixed goal, the gap is `(1 - k)^n` times the first gap |
| ThreeBackground.PowInUnit | components/ThreeBackground.tsx:83-84 | a power of a factor in (0, 1] stays in (0, 1] |
| ThreeBackground.NoOvershoot | components/ThreeBackground.tsx:83-84 | for `0 < k < 1` and a fixed goal, the smoothed value never crosses its goal and its distance to the goal never grows; this covers the pointer target (k = 0.05) with the pointer at rest, and the camera (k = 0.02) only once the target is at rest, since its goal `2 * target` moves while the target is still approaching |
| ThreeBackground.PointerGapShrinks | components/ThreeBackground.tsx:83-84 | with the pointer fixed, each frame multiplies the target's gap to the pointer by 0.95 |
| ThreeBackground.PixelRatio | components/ThreeBackground.tsx:20 | the pixel ratio is the device's, capped at 2 |
| ThreeBackground.Divide | components/ThreeBackground.tsx:129 | width over height is finite exactly when the height is positive, it is NaN exactly when both are 0, and Infinity otherwise |
| ThreeBackground.ParticleField.constructor | components/ThreeBackground.tsx:11-76 | both buffers have `3000 * 3` entries, are distinct and hold the sphere; the camera is at depth 3.5; the pointer state is zero; listeners are registered and the canvas is attached |
| ThreeBackground.ParticleField.HandleMouseMove | components/ThreeBackground.tsx:69-72 | the pointer state becomes the mapped offsets of the event's coordinates |
| ThreeBackground.ParticleField.WriteFrame | components/ThreeBackground.tsx:94-112 | the displayed buffer becomes the frame of the base buffer at that time; the base buffer is not written |
| ThreeBackground.ParticleField.Animate | components/ThreeBackground.tsx:78-122 | one more frame is requested; the target takes one smoothing step toward the pointer; the rotation is recomputed from time and target; the buffer is the frame; the camera takes one step toward twice the target; nothing else changes, and the buffer lengths are kept |
| ThreeBackground.ParticleField.HandleResize | components/ThreeBackground.tsx:127-132 | without a mount element nothing changes; otherwise aspect and surface size come from the viewport, with no guard against zero |
| ThreeBackground.ParticleField.Cleanup | components/ThreeBackground.tsx:136-145 | the listeners are removed; removing a canvas that is no longer attached throws and skips the disposals; otherwise the canvas is detached if the mount is there and everything is disposed once |
| ThreeBackground.Mount | components/ThreeBackground.tsx:7-124 | nothing is created without a mount element; otherwise fresh buffers are built, the base buffer holds the sphere, the displayed buffer holds the first frame at the start time, the pointer state is zero, the rotation is the start time times 0.1, the camera is at (0, 0, 3.5), one frame is requested, listeners are registered, the canvas is attached and nothing is disposed |
| ThreeBackground.FrameAfterCleanup | components/ThreeBackground.tsx:78-145 | after cleanup, whether or not the mount element is still there, a pending frame still runs, rewrites the buffer and requests another frame |
| ThreeBackground.CleanupTwice | components/ThreeBackground.tsx:136-145 | a second cleanup disposes again when the mount is gone, and throws when it is still there |

## Left out

- The scene, camera object, renderer, material, `render`, `lookAt`, `updateProjectionMatrix` and `setSize` calls of the rendering library are not modelled. They are foreign calls with no visible semantics; only the values they receive are modelled (aspect, surface size, pixel ratio, camera position, rotation).
- The frame scheduler and the clock are not modelled. A requested frame is counted, and the elapsed time is an input to `Animate`.
- Window event listeners are not modelled. Registration is a flag, and handler arguments are inputs.
- Floating point is not modelled: coordinates are reals. `Float32Array` rounding and IEEE behaviour of the trigonometric functions are outside the model, which also makes no claim that the points lie exactly on the sphere. `OnSphere` holds only under the Pythagorean identity.
- The network client behind the concept generator is not modelled: the request, the API key check and JSON parsing. A reply is either a concept or a failure. A reply that parses to something other than a concept object is not modelled.
- `e.preventDefault()` is not modelled. A second submit while a request is in flight is not modelled either; the button is disabled then.
- The rejection of the promise `play()` returns is not modelled: it is only logged. The model takes `play()` as succeeding.
- The model compares the element's `src` with the track's source as plain strings. Browsers resolve `src` to an absolute URL; all listed sources are absolute already.
- The random equaliser bar heights and durations, framer-motion animations, and scroll-linked transforms are not modelled. They carry no state the logic reads.
- The navigation bar, hero, about, gallery and contact sections and the app shell are not modelled. They are declarative layout.
- The audio element's own `ended` event is not modelled. When a track finishes, the element stops while `isPlaying` stays true; the model's element records only the last play or pause call made on it.
- A failure to create a rendering surface is not modelled. The code does not handle it.
