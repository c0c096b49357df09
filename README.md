# Sounds of Street View — spatial audio core in Dafny

This project models the audio logic of `src/js/sosv.js`. The script places
ambient sounds on a Street View panorama and turns the listener's position and
heading into three values per sound:

- a stereo pan,
- a lowpass-filter cutoff,
- a distance-attenuated volume.

The model covers the arithmetic of `Sound.updatePan` and `Sound.calculateVolume`,
the change-gated volume cache of `Sound.updateVolume`, and the choice between
native and manual looping in `createSound` and `playSound`. It also covers the
readiness counter of `SOSV`, which starts all sounds once every sound has loaded
or failed to load.

Files:

- `Spatial.dfy` (module `Spatial`): pure functions on `real`. `Normalize` and
  `RelativeAngle` give the relative angle. `Pan` gives the folded pan, `Cutoff`
  the filter frequency and `Volume` the capped inverse-square volume. Lemmas
  state their ranges, monotonicity and symmetry.
- `SoundSource.dfy` (module `SoundSource`): one sound. The value `SoundState`
  holds the fields that the handlers change: `vol`, `prevVolume`,
  `prevUserPosition`, how many pause-and-replay `end` handlers are registered,
  and the log of commands sent to the audio player. Step functions
  (`AfterPan`, `AfterVolume`, `AfterMovement`, `AfterPlay`, `AfterClipEnd`,
  `AfterStop`) specify each handler. `Consistent` is the invariant every
  handler keeps. The class `Sound` has the same fields and updates them in
  place, and each method is proved to follow its step function.
- `Scene.dfy` (module `Scene`): the class `Sosv`. It has the sound array, the
  `soundCount` counter and the methods `OnJsonLoaded`, `LoadSounds`,
  `OnSoundLoaded` and `PlaySounds`. A ghost count of load events and of
  `playSounds` runs relates the counter to `PlayRuns`, a closed-form account of
  when playback starts.

Inputs the model does not compute:

- The bearing, `Math.atan2(yDiff, xDiff)` in degrees, and the haversine
  `Distance` in metres. Both are supplied as the two function fields of
  `Geometry`.
- The viewer's current position and heading. These are supplied as a `View`.

All numbers are exact reals. `pause` is a real number, not a string.

Points where the code behaves differently from what a reader might expect; the
model follows the code:

- After the single correction, the relative angle lies in [-180, 180], not
  (-180, 180]. An angle of exactly -180 is left as it is.
- Distance 0 is not special-cased in the code, which divides by zero. The model
  requires a nonzero distance wherever a volume is computed.
- The code puts no floor on the filter cutoff. `CutoffNonNegativeIff` shows that
  the cutoff stays non-negative only up to 290 degrees.
- `prevVolume` is updated as soon as the fade is issued, not when the fade
  completes.
- The code has no lifecycle enum. The model's state is the fields the code has.
- Every call of `playSound` on a sound with a nonzero pause registers one more
  `end` handler. More load events than sounds make `playSounds` run again
  (`PlayRunsClosedForm`), and each further clip end then sends one pause and
  one replay per handler (`PlayingAgainAddsHandlers`).

## Model

| member | source | states |
|---|---|---|
| `Spatial.Normalize` | src/js/sosv.js:146-148 | the correction adds or subtracts at most one full turn and leaves angles in [-180, 180] unchanged |
| `Spatial.RelativeAngle` | src/js/sosv.js:141-148 | for a bearing in (-180, 180] and a heading in [0, 360), the relative angle lies in [-180, 180] |
| `Spatial.NormalizeInRangeIff` | src/js/sosv.js:146-148 | a single correction brings an angle into [-180, 180] exactly when it lies in [-540, 540] |
| `Spatial.Pan` | src/js/sosv.js:150-155 | for angles in [-180, 180] the pan lies in [-1, 1]; it is non-negative for sounds to the right and non-positive for sounds to the left |
| `Spatial.PanInRangeIff` | src/js/sosv.js:150-155 | the pan lies within [-1, 1] exactly for angles in [-270, 270] |
| `Spatial.PanInFront` | src/js/sosv.js:151 | for \|angle\| <= 90 the pan is angle / 90 |
| `Spatial.PanBehind` | src/js/sosv.js:152-155 | for \|angle\| > 90 the pan is sign(angle) * (2 - \|angle\| / 90) |
| `Spatial.PanIsTriangle` | src/js/sosv.js:150-155 | on [0, 180] the pan equals the triangle wave 1 - \|angle - 90\| / 90, an independent definition |
| `Spatial.PanIsOdd` | src/js/sosv.js:150-155 | mirroring the angle mirrors the pan |
| `Spatial.PanFoldExamples` | src/js/sosv.js:152-155 | raw pan 1.2 becomes 0.8, raw pan -1.3 becomes -0.7, a sound at ±180 is centred, and ±90 gives ±1 |
| `Spatial.Cutoff` | src/js/sosv.js:160-165 | the cutoff never exceeds 11000 Hz; it equals 11000 exactly when \|angle\| <= 90; for \|angle\| <= 180 it is at least 6050 |
| `Spatial.CutoffStrictlyDecreasing` | src/js/sosv.js:162-165 | past 90 degrees the cutoff strictly decreases as \|angle\| grows |
| `Spatial.CutoffMonotone` | src/js/sosv.js:160-165 | the cutoff never rises as \|angle\| grows and depends only on \|angle\| |
| `Spatial.CutoffDirectlyBehind` | src/js/sosv.js:164 | at ±180 degrees the cutoff is 6050 Hz |
| `Spatial.CutoffNonNegativeIff` | src/js/sosv.js:160-165 | with no floor applied, the cutoff is non-negative exactly when \|angle\| <= 290 |
| `Spatial.Volume` | src/js/sosv.js:189-195 | the volume never exceeds 1, and it is non-negative for a non-negative amplitude |
| `Spatial.VolumeInverseSquare` | src/js/sosv.js:190-193 | the cap of 1 is reached exactly when db >= d²; below the cap, volume × d² = db |
| `Spatial.VolumeNonIncreasing` | src/js/sosv.js:189-195 | for db >= 0 and 0 < d1 <= d2, the volume at d2 is at most the volume at d1 |
| `Spatial.VolumeNonDecreasingInAmplitude` | src/js/sosv.js:193 | at a fixed distance, a larger amplitude never gives a smaller volume |
| `Spatial.InUnit` | src/js/sosv.js:24-28 | in miles the distance is metres × 0.000621371192; any other unit returns the metre value unchanged; a non-negative distance stays between 0 and the metre value |
| `Spatial.MilesRoundTrip` | src/js/sosv.js:24-25 | dividing a distance in miles by the conversion factor gives back the metres, and the conversion preserves order |
| `SoundSource.BearingDependsOnOffset` | src/js/sosv.js:139-141 | the bearing is atan2 of the longitude difference over the latitude difference, so shifting the sound and the listener by the same offset leaves it unchanged |
| `SoundSource.WholeMs` | src/js/sosv.js:100-102 | the replay delay is the pause truncated toward zero: it has the same sign as the pause, and its magnitude is within 1 below the pause's |
| `SoundSource.PanCommands` | src/js/sosv.js:137-167 | updatePan sends a pos3d(pan, 1, 1) and then a filter; for a bearing in (-180, 180] and a heading in [0, 360), the pan lies in [-1, 1] and the cutoff in [6050, 11000] |
| `SoundSource.AfterPan` | src/js/sosv.js:137-167 | updatePan appends a pos3d and then a filter to the log; it sends no fade and leaves the volume, the cache and the handlers unchanged |
| `SoundSource.Moved` | src/js/sosv.js:171 | the lat-or-lng comparison against the cache holds exactly when the cached position is not the listener's (always, while nothing is cached) |
| `SoundSource.AfterVolume` | src/js/sosv.js:169-187 | without a move the state is unchanged; after a move it sends one 500 ms fade from prevVolume to the new volume, and sets vol = prevVolume = that volume; either way, afterwards the cache holds the listener's position |
| `SoundSource.AfterMovement` | src/js/sosv.js:126-135 | onUserMovement keeps the old log as a prefix; it adds 3 commands and one fade after a move, and 2 commands and no fade otherwise; it caches the position; without a move, vol and prevVolume are kept |
| `SoundSource.AfterPlay` | src/js/sosv.js:89-106 | playSound appends play and registers one more pause-and-replay handler exactly when the pause is nonzero; on a consistent state, handlers exist iff the pause is nonzero |
| `SoundSource.Replays` | src/js/sosv.js:96-102 | n registered end handlers send 2n commands alternating pause and replay-after-ms |
| `SoundSource.AfterClipEnd` | src/js/sosv.js:96-104 | a clip end appends two commands per registered handler, none of them a fade, and changes nothing else; with no handler it changes nothing |
| `SoundSource.AfterStop` | src/js/sosv.js:108-110 | stopSound appends exactly one stop, no fade, and changes nothing else |
| `SoundSource.MovementFadesOnce` | src/js/sosv.js:169-187 | a move to a new position sends pan, filter and exactly one 500 ms fade from the cached volume to the volume at the new distance; it also caches the position and sets vol = prevVolume |
| `SoundSource.HeadingOnlyNoFade` | src/js/sosv.js:126-135 | when the position is unchanged, onUserMovement sends pan and filter only; it sends no fade and leaves vol, prevVolume and the cached position unchanged |
| `SoundSource.VolumeUpdateIdempotent` | src/js/sosv.js:171 | a second volume update at the same position changes nothing, whatever distance it is given |
| `SoundSource.RepeatedPositionFadesOnce` | src/js/sosv.js:171-186 | two movement events at the same position, with any headings, send only one fade |
| `SoundSource.ZeroPauseNeverPauses` | src/js/sosv.js:94-105 | a sound with zero pause, played or not, answers a clip end with nothing: no pause and no replay |
| `SoundSource.NonzeroPauseReplays` | src/js/sosv.js:94-104 | a play of a sound with a nonzero pause registers one more handler; each clip end then sends a pause and a replay after parseInt(pause) ms per handler |
| `SoundSource.PlayingAgainAddsHandlers` | src/js/sosv.js:89-105 | after k plays with a nonzero pause, k handlers are registered and a clip end sends 2k commands; with a zero pause, none |
| `SoundSource.InitialConsistent` | src/js/sosv.js:39-43 | the initial volume 0, prevVolume 0, empty position cache and empty log satisfy the sound invariant |
| `SoundSource.PanKeepsConsistent` | src/js/sosv.js:137-167 | updatePan keeps the sound invariant |
| `SoundSource.VolumeKeepsConsistent` | src/js/sosv.js:169-187 | updateVolume keeps the invariant: the fades chain from 0 to vol, each lasting 500 ms and starting at the previous target; vol = prevVolume; for db >= 0, vol is in [0, 1] |
| `SoundSource.MovementKeepsConsistent` | src/js/sosv.js:126-135 | onUserMovement keeps the sound invariant |
| `SoundSource.PlayKeepsConsistent` | src/js/sosv.js:89-106 | playSound keeps the sound invariant, including "end handlers only for a nonzero pause" |
| `SoundSource.ClipEndKeepsConsistent` | src/js/sosv.js:96-104 | the end handler keeps the sound invariant |
| `SoundSource.StopKeepsConsistent` | src/js/sosv.js:108-110 | stopSound keeps the sound invariant |
| `SoundSource.Sound.constructor` | src/js/sosv.js:39-68 | a new sound has the initial state; native looping is requested exactly when the pause is zero |
| `SoundSource.Sound.PlaySound` | src/js/sosv.js:89-106 | follows `AfterPlay`; afterwards handlers are registered iff the pause is nonzero, and a natively looping sound has none |
| `SoundSource.Sound.StopSound` | src/js/sosv.js:108-110 | appends stop and keeps the invariant |
| `SoundSource.Sound.ClipEnded` | src/js/sosv.js:96-104 | runs each registered handler in turn, appending `Replays` of them; follows `AfterClipEnd`, and a natively looping sound's state is unchanged |
| `SoundSource.Sound.UpdatePan` | src/js/sosv.js:137-167 | the in-place computation appends exactly the commands of `PanCommands` for atan2 of the position differences minus the heading |
| `SoundSource.Sound.UpdateVolume` | src/js/sosv.js:169-187 | follows `AfterVolume` for the distance to the listener; afterwards prevVolume = vol and the cache holds the listener's position |
| `SoundSource.Sound.OnUserMovement` | src/js/sosv.js:126-135 | updatePan then updateVolume; the new state is `AfterMovement` of the old one, and the invariant is kept |
| `Scene.PlayRuns` | src/js/sosv.js:332-340 | playSounds runs at most once per load event; up to n events it has run 0 times, or once on exactly the n-th |
| `Scene.PlayRunsClosedForm` | src/js/sosv.js:332-340 | after k onSoundLoaded calls with the counter started at n, playSounds has run 0 times if k < n; otherwise k - n + 1 times (k times when n = 0) |
| `Scene.PlayStartsOnLastLoad` | src/js/sosv.js:243-251 | with n >= 1 sounds, playSounds has run iff at least n load events arrived, and it first runs on exactly the n-th; with no sounds, the single manual call runs it |
| `Scene.Sosv.constructor` | src/js/sosv.js:202-207 | an empty scene: no sounds, counter 0, nothing played |
| `Scene.Sosv.OnJsonLoaded` | src/js/sosv.js:241-252 | the counter becomes the number of sounds; one fresh sound per entry, in order, in its initial state; with no sounds, playSounds has already run once and the counter is -1 |
| `Scene.Sosv.LoadSounds` | src/js/sosv.js:323-330 | appends one fresh sound per configuration entry, in order, and keeps earlier sounds and all sound invariants |
| `Scene.Sosv.OnSoundLoaded` | src/js/sosv.js:332-340 | decrements the counter; playSounds runs exactly when the counter reaches <= 0; otherwise no sound changes; the readiness invariant counter = sounds - events is kept |
| `Scene.Sosv.PlaySounds` | src/js/sosv.js:342-349 | each sound in the array is played and then receives the current view: its new state is `AfterMovement(AfterPlay(old state))` |
| `Scene.Sosv.StartSound` | src/js/sosv.js:346-347 | one loop round: the i-th sound is played and then moved, and every other sound is unchanged |

## Left out

- `Distance` (haversine, `rad`) and the `Math.atan2` bearing: sine, cosine, square root and π have no exact model. They are the two function fields of `Geometry`. Only the conversion to miles is modelled, in `InUnit`.
- `getUrlVars`, `devMode`, `addSoundToMap`/`addMarker` and the marker icon and drag flags: browser URL and map-marker plumbing.
- The `updatePan()` call with no arguments in `addSoundToMap`. It sends commands computed from undefined values, so a new sound's log starts empty.
- `webApiTest` and the Web Audio check in `init`: a browser capability test. As written, `init` tests the function itself rather than its result.
- `createStreetView`, the `onPanoChanged`/`onPositionChanged`/`onPovChanged` relays, `showUserData` and `showMarkerData`: map, DOM and debug display.
- The jQuery dispatch of movement events to every sound. Each sound's `OnUserMovement` is modelled, but no scene-level broadcast is.
- `unloadSound`: fade-out with a completion callback and a fallback timer. These are asynchronous timers. The code does not stop the player's `unload` from running twice.
- The timer firing that replays the sound after the pause. Only its scheduling is recorded, as `ReplayAfter(ms)`.
- Audio loading and its success and error callbacks. Each callback is an `OnSoundLoaded` call.
- String coercion: `parseFloat` of `pause` (a non-numeric pause would read as NaN, which acts like 0) and `Number` of the heading. `pause` is a real.
- IEEE floating point, NaN and Infinity: all arithmetic is on exact reals.
- `Spatial.Volume`: requires distance != 0. The code computes 1/0 = Infinity, which caps to 1 for db > 0 and gives NaN for db = 0.
- `SoundSource.Sound.ClipEnded`: the handlers are counted, not kept as a list of closures. They are all identical, so the count determines what a clip end sends.
- `Scene.Sosv.PlaySounds`: each sound keeps its own command log, so the order of commands across different sounds is not recorded.
- `Scene.Sosv.OnJsonLoaded`: requires that the configuration has not been loaded before. The code loads it once.
