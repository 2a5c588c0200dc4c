# City tour game: a verified model of the game logic

City Tour is a browser game for a heritage walk around Monas, Jakarta. The
player moves along a saga map of five levels. A level opens only once the
player's GPS position is within 500 m of the target. Each level is played
as a challenge: a three-question trivia quiz, an AR hunt in which three
virtual objects are placed around the player and found by turning the
phone, or a location-based challenge (`LocationBasedChallenge`, offered
by the level page); the location-based challenge is not part of this
model. Organisers can also create hunts through a form.

This project models that game logic in Dafny, one module per core file:

| module | file | models |
|---|---|---|
| `ArHunter` (`ar_hunter.dfy`) | `src/components/WebARHunter.jsx` | JavaScript's truncated `%` on angles; `wrapAngle` and the (-180, 180] heading difference; object placement; the orientation updater; the field-of-view projection `getObjectView`; the visible-object filter; capture counting and completion; the camera status |
| `MapProgress` (`map_progress.dfy`) | `src/app/map/page.js` | the unlocked-level list, which starts as `[1]`; completing a level inserts the next one and sorts the list |
| `SagaMapView` (`saga_map.dfy`) | `src/components/SagaMap.jsx` | the five level nodes, each node's lock or star badge, the click handler that opens the location check for unlocked levels only, and closing the modal |
| `HuntForm` (`hunt_form.dfy`) | `src/components/CreateHuntModal.jsx` | field updates, the ordered validation chain and its messages, the payload sent to the hunt store, the submit/settle status machine, and the close guard |
| `TriviaQuiz` (`trivia.dfy`) | `src/components/Trivia.jsx` | the questions, first-answer-wins scoring, the "next" button, and score reporting |
| `LocationCheck` (`location_modal.dfy`) | `src/components/LocationModal.jsx` | the GPS status machine, the radius label and the out-of-range message, the geolocation error messages, and the close guard |
| `Text` (`text.dfy`) | shared | JavaScript `trim`, and decimal rendering of a non-negative integer |
| `Common` (`common.dfy`) | shared | `Option` |

State that a component keeps in `useState` or `useRef` is modelled as a
`class` whose methods change that state. They have `modifies` clauses and
state the new state in their `ensures`. Callbacks the component calls
(`onComplete`, `onVerified`, `onSuccess`, `onClose`) are logs on the
class: a sequence of the arguments, or a call counter. Values that come
from the browser or the clock are parameters. These are `Math.random`,
`Math.atan2`, the camera outcome, `deviceorientation` events, geolocation
support, the distance verdict, the position error code, the store's answer
and today's date. Angles are `real` degrees.

`handleCaptureObject` counts a capture whether or not an object with that
id is still present (WebARHunter.jsx:150-151), and the model does the same
(`ArHunter.HunterSession.CaptureObject`).

## Model

| member | source | states |
|---|---|---|
| ArHunter.JsRem360 | src/components/WebARHunter.jsx:130 | `a % 360` lies in [0, 360) for a non-negative dividend and in (-360, 0] for a negative one, and differs from `a` by whole turns |
| ArHunter.WrapAngle | src/components/WebARHunter.jsx:130 | `((a % 360) + 360) % 360` lies in [0, 360) and points the same way as `a` |
| ArHunter.WrapAngleUnique | src/components/WebARHunter.jsx:130 | it is the only angle in [0, 360) that points the same way as `a` |
| ArHunter.WrapAngleIdentity | src/components/WebARHunter.jsx:130 | an angle already in [0, 360) is left unchanged |
| ArHunter.WrapAnglePeriodic | src/components/WebARHunter.jsx:130 | adding whole turns does not change the wrapped angle |
| ArHunter.Wrap180 | src/components/WebARHunter.jsx:131-132 | the normalised heading difference lies in (-180, 180] and differs from the raw difference by whole turns |
| ArHunter.Wrap180Identity | src/components/WebARHunter.jsx:131-132 | a difference already in (-180, 180] is kept as it is |
| ArHunter.Wrap180Idempotent | src/components/WebARHunter.jsx:131-132 | normalising twice gives the same result as normalising once |
| ArHunter.Azimuth | src/components/WebARHunter.jsx:21 | for an `atan2` bearing in [-180, 180], `(b + 360) % 360` is a compass bearing in [0, 360) pointing the same way |
| ArHunter.Elevation | src/components/WebARHunter.jsx:22 | `(random - 0.5) * 20` lies in [-10, 10) and is negative exactly when the draw is below 0.5 |
| ArHunter.PlaceObjectsAroundUser | src/components/WebARHunter.jsx:15-26 | three objects, in template order, each with its template's id, type, icon and name and the bearing and elevation of its own draw; ids are 1, 2, 3 and distinct |
| ArHunter.Reading | src/components/WebARHunter.jsx:86-87 | a missing alpha reads as 0 and a missing beta as 90; present angles are kept |
| ArHunter.OrientationUpdate | src/components/WebARHunter.jsx:88 | the previous state object is kept exactly when it already holds the event's reading; otherwise the reading replaces it |
| ArHunter.LastReadingWins | src/components/WebARHunter.jsx:85-89 | after any event, the orientation state holds that event's reading |
| ArHunter.FallbackPosition | src/components/WebARHunter.jsx:124-127 | every fallback position lies inside the clamping box; an id other than 1, 2 or 3 gets (50, 50), and ids 1, 2 and 3 get positions other than (50, 50) |
| ArHunter.FallbackSpreadDistinct | src/components/WebARHunter.jsx:124 | no two of the three objects share a fallback position |
| ArHunter.Clamp | src/components/WebARHunter.jsx:138 | `max(lo, min(hi, v))` lies in [lo, hi] and is `v` when `v` is already inside |
| ArHunter.HeadingDelta | src/components/WebARHunter.jsx:131-132 | the horizontal offset from where the device points to the object lies in (-180, 180] and differs from the raw bearing difference by whole turns; `GetObjectView` and `DeadAheadIsCentred` state what it does to the view |
| ArHunter.PitchDelta | src/components/WebARHunter.jsx:133-134 | the vertical offset is positive exactly when the object is above the view pitch `90 - beta`, and zero exactly when level with it; `GetObjectView` states what it does to the view |
| ArHunter.GetObjectView | src/components/WebARHunter.jsx:125-139 | the position always lies in [5, 95] x [10, 90]; with no orientation, the object is shown at its fallback position; otherwise it is shown exactly when the heading difference is under 25 and the pitch difference under 22.5 degrees, and a shown object sits at the linear image of both differences |
| ArHunter.DeadAheadIsCentred | src/components/WebARHunter.jsx:131-137 | an object straight ahead is shown at the centre (50, 50) |
| ArHunter.ViewPeriodicInHeading | src/components/WebARHunter.jsx:130-138 | turning the device by whole turns gives the same view of every object |
| ArHunter.SweepFindsObject | src/components/WebARHunter.jsx:130-135 | an object within the vertical field of view is shown when the device faces its azimuth: turning all the way round finds it |
| ArHunter.VisibleObjects | src/components/WebARHunter.jsx:233-235 | the drawn objects are exactly the listed objects whose view is in view; with no orientation, all of them |
| ArHunter.RemoveById | src/components/WebARHunter.jsx:150 | the filter keeps exactly the objects whose id differs and never lengthens the list |
| ArHunter.RemoveByIdAppend | src/components/WebARHunter.jsx:150 | the filter keeps the order of what it keeps: it distributes over concatenation |
| ArHunter.RemoveAbsentId | src/components/WebARHunter.jsx:150 | removing an id that no object carries changes nothing |
| ArHunter.RemovePresentId | src/components/WebARHunter.jsx:150 | with distinct ids, removing a present id removes exactly one object, and the ids stay distinct |
| ArHunter.DistinctAfterRemove | src/components/WebARHunter.jsx:150 | the filter keeps ids distinct |
| ArHunter.CameraMessage | src/components/WebARHunter.jsx:40-61 | the error message is empty exactly when the stream started; otherwise it is the unsupported, denied or generic camera message |
| ArHunter.HunterSession.constructor | src/components/WebARHunter.jsx:29-36 | a fresh view is loading, with no objects, no captures, no orientation and no stream |
| ArHunter.HunterSession.CameraSettled | src/components/WebARHunter.jsx:39-62 | a started stream makes the view ready and holds the stream; any other outcome is an error with its message; nothing else changes |
| ArHunter.HunterSession.HandleOrientation | src/components/WebARHunter.jsx:85-89 | the orientation becomes the updater's result, which is the event's reading |
| ArHunter.HunterSession.SpawnEffect | src/components/WebARHunter.jsx:142-146 | objects are placed from the draws the first time the camera is ready, and never again; the session invariant is kept |
| ArHunter.HunterSession.CaptureObject | src/components/WebARHunter.jsx:148-167 | objects with the id are removed (one if present, none if absent); the count rises by one; at TARGET_COUNT the stream is released and `onComplete(TARGET_COUNT)` is logged; the invariant ties the number of completions to the count |
| ArHunter.HunterSession.Unmount | src/components/WebARHunter.jsx:64-69 | unmounting releases the camera stream |
| ArHunter.HunterSession.ViewOf | src/components/WebARHunter.jsx:234 | the view used for rendering lies in the clamping box and shows every object while there is no orientation |
| ArHunter.CaptureAllScenario | src/components/WebARHunter.jsx:148-166 | camera ready, objects spawned, ids 1, 2 and 3 tapped: `onComplete` is called exactly once, with 3, no object is left and the stream is released |
| Text.TrimStartSuffix | src/components/CreateHuntModal.jsx:28 | removing leading white space leaves a suffix; everything removed is white space; the rest does not start with white space |
| Text.TrimEndPrefix | src/components/CreateHuntModal.jsx:28 | removing trailing white space leaves a prefix; everything removed is white space; the rest does not end with white space |
| Text.Trim | src/components/CreateHuntModal.jsx:28 | `trim` (also used at lines 58 and 63-64) never lengthens the string; `TrimIsSlice`, `TrimRemovesOnlyWhitespace`, `TrimEndsNotWhitespace` and `TrimEmptyIff` state what it keeps and drops |
| Text.TrimIsSlice | src/components/CreateHuntModal.jsx:28 | `trim` keeps one contiguous slice of the string, starting after the leading white space |
| Text.TrimRemovesOnlyWhitespace | src/components/CreateHuntModal.jsx:28 | everything `trim` removes, on either side, is white space |
| Text.TrimEndsNotWhitespace | src/components/CreateHuntModal.jsx:28 | a non-empty trimmed string neither starts nor ends with white space |
| Text.TrimEmptyIff | src/components/CreateHuntModal.jsx:28-29 | a string trims to empty exactly when it is all white space |
| Text.TrimIdempotent | src/components/CreateHuntModal.jsx:58 | trimming twice is trimming once |
| Text.NatToDecimal | src/components/LocationModal.jsx:44 | a rendered number is a non-empty string of digits with no leading zero |
| Text.DecimalRoundTrip | src/components/LocationModal.jsx:44 | reading the rendered digits back gives the number |
| MapProgress.InsertSortedMultiset | src/app/map/page.js:37 | inserting adds exactly one occurrence of the new level and keeps every other element |
| MapProgress.InsertSortedSorted | src/app/map/page.js:37 | inserting into a sorted list keeps it sorted |
| MapProgress.SortAscending | src/app/map/page.js:37 | `sort((a, b) => a - b)` returns a sorted permutation of its input |
| MapProgress.InsertLargest | src/app/map/page.js:37 | inserting an element no smaller than any other appends it |
| MapProgress.SortSortedUnchanged | src/app/map/page.js:37 | sorting an already sorted list leaves it as it is |
| MapProgress.UnlockAfter | src/app/map/page.js:33-42 | after completing L, L + 1 is unlocked; the list is unchanged when L + 1 was already in it; otherwise it is sorted and holds exactly the old levels plus L + 1 |
| MapProgress.UnlockIdempotent | src/app/map/page.js:34-37 | completing the same level twice is the same as completing it once |
| MapProgress.SortedDistinctIsStrict | src/app/map/page.js:37 | a sorted list without repeats is strictly ascending |
| MapProgress.StrictHasNoRepeats | src/app/map/page.js:35-37 | a strictly ascending list holds each level at most once |
| MapProgress.UnlockKeepsStrict | src/app/map/page.js:33-42 | completing any level keeps a strictly ascending list strictly ascending, so starting from [1] no level is ever listed twice |
| MapProgress.UnlockNextAppends | src/app/map/page.js:34-37 | completing the highest unlocked level appends the next level at the end |
| MapProgress.Progress.constructor | src/app/map/page.js:14 | the page starts with only level 1 unlocked |
| MapProgress.Progress.CompleteLevel | src/app/map/page.js:29-45 | the list becomes the updater's result: the next level is unlocked and no level is lost |
| MapProgress.UnlockNextLevel | src/app/map/page.js:34-37 | with levels 1..n unlocked, completing level n unlocks exactly 1..n + 1 |
| MapProgress.PlayThroughUnlocksAll | src/app/map/page.js:14-42 | starting from [1] and completing levels 1, 2, ..., n in turn, one page visit each, unlocks exactly levels 1..n + 1, in order |
| SagaMapView.MapLevelsExact | src/components/SagaMap.jsx:87 | the map shows exactly levels 1 to 5, ascending, each once |
| SagaMapView.MapLevels | src/components/SagaMap.jsx:87 | the node list has one entry per level and is strictly ascending; `MapLevelsExact` states that its entries are exactly 1 to 5 |
| SagaMapView.IsUnlocked | src/components/SagaMap.jsx:89 | `includes(level)`: when levels 1 to n are unlocked, a level is unlocked exactly when it lies in 1..n; `NodeBadge` states the badge it selects |
| SagaMapView.IsCompleted | src/components/SagaMap.jsx:90 | `includes(level + 1)`: when levels 1 to n are unlocked, a level from 1 up is completed exactly when it is below n; `NodeBadge` and `CompletingShowsStar` state the star it selects |
| SagaMapView.NodeBadge | src/components/SagaMap.jsx:118-122 | the lock is shown exactly for locked levels, the star exactly for unlocked levels whose next level is unlocked, and nothing otherwise |
| SagaMapView.CompletingShowsStar | src/components/SagaMap.jsx:89-90 | after an unlocked level is completed, it shows the star, the next node is unlocked, and every other node's lock is unchanged |
| SagaMapView.SagaMap.constructor | src/components/SagaMap.jsx:10-12 | no level is selected and the modal is closed |
| SagaMapView.SagaMap.HandleNodeClick | src/components/SagaMap.jsx:25-36 | a click on a locked level changes nothing; a click on an unlocked level selects it and opens the location modal |
| SagaMapView.SagaMap.CloseModal | src/components/SagaMap.jsx:152-155 | closing clears the selection and closes the modal |
| SagaMapView.LockedClickScenario | src/components/SagaMap.jsx:25-31 | with only level 1 unlocked, clicking level 2 opens nothing |
| HuntForm.Get | src/components/CreateHuntModal.jsx:13-20 | each field reads back as a value of its own type |
| HuntForm.WithField | src/components/CreateHuntModal.jsx:22-23 | the spread update sets the named field and leaves every other field unchanged |
| HuntForm.Message | src/components/CreateHuntModal.jsx:27-48 | every validation failure has a non-empty message |
| HuntForm.InitialForm | src/components/CreateHuntModal.jsx:13-20 | the empty form (also restored at lines 73-80) is rejected only for its empty name: it fails the name check first and passes the other three |
| HuntForm.Passes | src/components/CreateHuntModal.jsx:27-48 | one check on its own: the name check passes exactly when the name has a non-white-space character; with both dates present, the order check passes exactly when the start is not after the end; `ValidationRules` states all four in field terms |
| HuntForm.FirstFailure | src/components/CreateHuntModal.jsx:27-48 | the early returns of `validate`: a reported check is one the form fails; `FirstFailureIsFirst` states that every earlier check passes, `AcceptedIffAllPass` and `ValidationRules` what acceptance means |
| HuntForm.AcceptedIffAllPass | src/components/CreateHuntModal.jsx:27-49 | the form is accepted exactly when it passes all four checks |
| HuntForm.FirstFailureIsFirst | src/components/CreateHuntModal.jsx:27-48 | the reported failure is a check the form fails, and every earlier check passes |
| HuntForm.ValidationRules | src/components/CreateHuntModal.jsx:27-48 | an all-white-space name is rejected first; missing dates are rejected next; with a name and both dates, the order check fails exactly when the end is before the start; acceptance means a non-blank name, both dates in order and at least one participant |
| HuntForm.SameDayAccepted | src/components/CreateHuntModal.jsx:33-42 | a hunt may end on the day it starts |
| HuntForm.PayloadOf | src/components/CreateHuntModal.jsx:56-64 | the name is trimmed; the dates are passed as they are; the participant count is at least 1, and is the entered count when that is positive; description and location are present exactly when non-blank, and trimmed |
| HuntForm.BuildPayload | src/components/CreateHuntModal.jsx:56-64 | the payload built one field at a time is `PayloadOf` the form |
| HuntForm.CreateHuntModal.constructor | src/components/CreateHuntModal.jsx:11-20 | the form starts empty, with both dates today and 10 participants, idle and without a message |
| HuntForm.CreateHuntModal.Update | src/components/CreateHuntModal.jsx:22-25 | one field changes and the message is cleared |
| HuntForm.CreateHuntModal.Validate | src/components/CreateHuntModal.jsx:27-49 | the result is true exactly when no check fails; on failure, the message is that of the first failing check |
| HuntForm.CreateHuntModal.Submit | src/components/CreateHuntModal.jsx:51-64 | an invalid form is not sent and keeps its status, with the first failure's message; a valid one starts loading, clears the message and sends `PayloadOf` the form |
| HuntForm.CreateHuntModal.SubmitSettled | src/components/CreateHuntModal.jsx:66-83 | a non-empty error is shown and nothing else changes; otherwise the form is reset, `onSuccess` and `onClose` are called once, and the status returns to idle |
| HuntForm.CreateHuntModal.HandleClose | src/components/CreateHuntModal.jsx:85-91 | closing is ignored while loading; otherwise the modal resets to idle, clears the message and calls `onClose` |
| TriviaQuiz.QuestionsWellFormed | src/components/Trivia.jsx:8-33 | three questions, each with four options and a correct index among them |
| TriviaQuiz.Points | src/components/Trivia.jsx:50-52 | an answer earns one point exactly when it is the correct option, otherwise none |
| TriviaQuiz.Trivia.constructor | src/components/Trivia.jsx:36-39 | the quiz starts on the first question, with no answer, no score and no result shown |
| TriviaQuiz.Trivia.NextOffered | src/components/Trivia.jsx:140 | the next button is offered exactly when the current question has been answered |
| TriviaQuiz.Trivia.IsLastQuestion | src/components/Trivia.jsx:42 | the current index names a question and no question follows it; `Next` states that only then is the score reported |
| TriviaQuiz.Trivia.SelectAnswer | src/components/Trivia.jsx:44-53 | the first answer to a question is kept, shows the result and adds its points; later answers change nothing |
| TriviaQuiz.Trivia.Next | src/components/Trivia.jsx:55-63 | on the last question the score is reported; otherwise the quiz moves to the next question with no answer and no result shown |
| TriviaQuiz.ScoreBounded | src/components/Trivia.jsx:44-63 | the score never exceeds the number of questions |
| TriviaQuiz.PlayRun | src/components/Trivia.jsx:44-63 | answering all three questions and pressing next each time reports the score once: the number of correct answers |
| LocationCheck.PositionErrorMessage | src/components/LocationModal.jsx:50-64 | every position error has a non-empty message |
| LocationCheck.PositionErrorMessagesDistinct | src/components/LocationModal.jsx:52-64 | permission denied, position unavailable and timeout have three different messages; every other code gets the generic message, which differs from all three |
| LocationCheck.RadiusLabelMeaning | src/components/LocationModal.jsx:43-44 | below 1000 m the label is the radius in metres followed by " m"; from 1000 m it is the radius rounded to whole kilometres followed by " km" |
| LocationCheck.RadiusLabel | src/components/LocationModal.jsx:43-44 | the label ends in " m" below 1000 m and in " km" from 1000 m on; `RadiusLabelMeaning` states the number in front of the unit |
| LocationCheck.OutOfRangeMessage | src/components/LocationModal.jsx:45-47 | the message holds the radius label between a fixed opening and a fixed closing, so the radius can be read back from it |
| LocationCheck.DefaultRadiusLabel | src/lib/constants.js:8 | the configured 500 m radius is written "500 m" |
| LocationCheck.LocationModal.constructor | src/components/LocationModal.jsx:9-11 | the check starts idle with no message |
| LocationCheck.LocationModal.ActivateGps | src/components/LocationModal.jsx:13-21 | activation starts loading with the message cleared, or fails at once with the unsupported message when there is no geolocation |
| LocationCheck.LocationModal.PositionReceived | src/components/LocationModal.jsx:35-48 | a position inside the radius succeeds, reports the level through `onVerified` and closes once; outside the radius, the check fails with the out-of-range message |
| LocationCheck.LocationModal.PositionFailed | src/components/LocationModal.jsx:50-64 | a position error fails the check with the message for its code |
| LocationCheck.LocationModal.HandleClose | src/components/LocationModal.jsx:70-76 | closing is ignored while loading; otherwise the check resets to idle, clears the message and calls `onClose` |
| LocationCheck.VerifiedScenario | src/components/LocationModal.jsx:13-40 | on the spot, one activation verifies the level exactly once; a close attempt during loading is ignored |

## Left out

- The distance test `isWithinRadius` and its haversine formula are not part of this model. The position callback takes the verdict as a boolean.
- `Math.random` and `Math.atan2` are inputs. Each object's placement takes an `atan2` bearing already in degrees, in [-180, 180], and one random draw in [0, 1). The latitude and longitude offsets are not modelled.
- Floating point is not modelled: angles, positions and the kilometre label use exact reals and integers. The rounding of `* (180 / Math.PI)`, of `/`, and of `toFixed` on values that are not exact is left out.
- Camera and sensor plumbing is left out: `getUserMedia`, attaching the stream to the video element, adding and removing the `deviceorientation` listener, and the iOS `requestOrientationOnTap` permission flow. Orientation events are applied as they arrive.
- Timers are collapsed. The 500 ms capture effect, the 1000 ms completion delay, the 1200 ms verified delay and the `showCaptureEffect` flag happen at once or are dropped. So are the orientation and camera events that could arrive during those delays.
- ArHunter.HunterSession.CaptureObject: the completion test reads the `capturedCount` of the current render. Two taps within one render both see the same value; the model handles taps one at a time.
- ArHunter.HunterSession.CameraSettled requires the camera to be still loading, because the effect that settles it runs once, at mount.
- `localStorage` persistence of the unlocked list (src/app/map/page.js:16-26 and 38-40) is not modelled as storage. Each visit to the map page mounts afresh with `[1]`; the list carries over only because the updater saves it and the next mount loads it back. `MapProgress.CompleteInTurn` and `MapProgress.PlayThroughUnlocksAll` assume that the saved list is restored exactly on the next visit. A missing, corrupt or edited saved list is not modelled.
- `parseInt` of the `completed` query parameter is left out: the level number is an integer input. So are `router.replace`, `router.push` and the level navigation through `onLevelClick`.
- The locked and click sounds `playLockedSound` and `playClickSound` are left out.
- Rendering, animation and styling are left out. The only rendering decisions modelled are the node badges, whether the next button is shown and which AR objects are drawn.
- HuntForm.Form: dates are day numbers, and `None` stands for an empty date input. Parsing ISO date strings with `new Date(...).getTime()` is not modelled.
- HuntForm.Form: the participant field is an integer, or `None` when the input is empty (`Number("")` is 0). Non-integer and `NaN` values of `Number(...)` are not modelled.
- HuntForm.WithField and HuntForm.CreateHuntModal.Update require the value to have the field's type. In the source this is guaranteed by the form controls, not by a check.
- The hunt store call `createHunt` is an input to `SubmitSettled`: an optional error string. The `data` handed to `onSuccess` is not modelled; the call is counted.
- Text.IsWhitespace: this is JavaScript's white-space and line-terminator set as fixed code points. The Unicode `Zs` category is not derived.

