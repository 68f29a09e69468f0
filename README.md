# Hand-gesture bulb: per-frame classification model

This project models the gesture core of the Lokesh Yantram page
(`src/pages/Index.tsx`). For every frame, the hand detector reports zero or
more hands of 21 normalized landmarks. The page's `onResults` callback then
does three things:

- it clears the overlay canvas and draws the first hand's skeleton;
- it counts that hand's open fingers;
- it stores a hand state (`open`, `half-open`, `closed`, `detecting`) and a
  bulb power (`full`, `half`, `off`).

Two small maps turn the stored strings into text: the status line and the
bulb's percentage.

Modules, one per part of the page:

- `Hand` (hand.dfy): landmarks, and `Outcome`. `Outcome` is either a value
  or the JavaScript `TypeError` that reading past the end of a landmark
  array raises.
- `FingerCounter` (fingers.dfy): `countOpenFingers`. It is a method with the
  page's mutable counter, and it is proved equal to a pure sum of five 0/1
  terms. A per-finger reference description sits beside it: tip and PIP
  indices, and the set of extended fingers.
- `Classifier` (classifier.dfy): the threshold chain and the frame decision.
- `Status` (status.dfy): `getStatusText` and the percentage label.
- `Skeleton` (skeleton.dfy): the connection table and `drawHandLandmarks`.
  The drawing is returned as a value: lines and dots in canvas pixels.
- `IndexPage` (index_page.dfy): the page's `handState` and `bulbPower`
  fields, `onResults` and the camera-error update.

The model follows the code exactly, including where it differs from what
one might expect of a gesture detector:

- The thumb counts as open when the x coordinates of landmarks 4, 3, 2, 1
  strictly increase. No test compares the wrist-to-tip distance against a
  threshold.
- A finger other than the thumb counts as open when its tip's y is strictly
  below its PIP joint's y. There is no margin.
- `!landmarks` is true only for a missing array. An empty array gets through
  and throws on `landmarks[4].x`. Every path through `countOpenFingers`
  reads landmark 20 unless an earlier read has already thrown. So any array
  shorter than 21 gives `TypeError`, which the model checks up front.
- In `onResults` the skeleton is drawn before the count, and the table
  reaches landmark 20. So a short first hand throws while drawing, and the
  stored state stays as it was.
- The camera-error path sets only `handState` to `error`. `bulbPower` is
  left unchanged there.
- The table has 24 entries. The wrist to index-knuckle link appears twice,
  so 23 distinct lines are drawn.

## Model

| member | source | states |
|---|---|---|
| `FingerCounter.OpenFingerSum` | src/pages/Index.tsx:226-248 | the count is at most 5 |
| `FingerCounter.OpenFingerCount` | src/pages/Index.tsx:223-249 | a missing array counts 0; the result is a TypeError exactly when a present array has fewer than 21 landmarks; otherwise it is at most 5 |
| `FingerCounter.CountOpenFingers` | src/pages/Index.tsx:223-249 | the counter built by five conditional increments equals the pure five-term sum, error cases included |
| `FingerCounter.SumByFinger` | src/pages/Index.tsx:226-248 | the five terms of the page are the flags of thumb, index, middle, ring and pinky under the reference tip/PIP description |
| `FingerCounter.ThumbIsStrictChain` | src/pages/Index.tsx:229-234 | the link-by-link thumb test holds exactly when the x coordinates of landmarks 1..4 are strictly decreasing as a whole sequence |
| `FingerCounter.TiedThumbIsClosed` | src/pages/Index.tsx:229-232 | two thumb joints with equal x never make an open thumb |
| `FingerCounter.CountIsExtendedFingers` | src/pages/Index.tsx:226-248 | the count equals the number of distinct extended fingers |
| `FingerCounter.CountExtremes` | src/pages/Index.tsx:226-248 | count 5 exactly when every finger is extended, count 0 exactly when none is |
| `FingerCounter.ExtensionIsLocal` | src/pages/Index.tsx:229-246 | a finger's flag depends only on the coordinate its test compares at its own joints (x of 1..4 for the thumb; y of tip and PIP, 8/6, 12/10, 16/14, 20/18, otherwise) |
| `Classifier.Reading` | src/pages/Index.tsx:161-170 | open exactly when the count is at least 4, half-open exactly for 2 or 3, closed exactly for 1 or less; the power is always the one the state implies (full, half, off) |
| `Classifier.Brightness` | src/pages/Index.tsx:318 | the bulb's percentage is at most 100 |
| `Classifier.BulbNeverDims` | src/pages/Index.tsx:161-170 | brightness is non-decreasing in the finger count |
| `Classifier.PowerOf` | src/pages/Index.tsx:161-173 | each branch pairs the hand state with its bulb power: full exactly for open, half exactly for half-open, off for every other state |
| `Classifier.FrameReading` | src/pages/Index.tsx:150-174 | the frame decides (detecting, off) exactly when the hand list is missing or empty; it throws exactly when the first reported hand has fewer than 21 landmarks; otherwise the decision is never error and its power matches its state |
| `Classifier.FrameReadingFollowsFingers` | src/pages/Index.tsx:150-170 | with a complete first hand, the decision is the threshold chain applied to the number of extended fingers |
| `Classifier.FirstHandOnly` | src/pages/Index.tsx:150-152 | hands after the first never change the decision |
| `Status.StatusText` | src/pages/Index.tsx:252-261 | the text is "Initializing..." exactly when the string names no hand state |
| `Status.StatusTextDistinguishesStates` | src/pages/Index.tsx:252-261 | distinct hand states show distinct messages |
| `Status.PercentLabel` | src/pages/Index.tsx:318 | "100%" exactly for "full", "50%" exactly for "half", "0%" for every other string |
| `Status.PercentLabelShowsBrightness` | src/pages/Index.tsx:318 | for every bulb power, the label is its brightness in decimal followed by "%" |
| `Skeleton.ConnectionsInRange` | src/pages/Index.tsx:189-196 | the table has 24 entries and every endpoint is a landmark index below 21 |
| `Skeleton.EveryLandmarkJoined` | src/pages/Index.tsx:189-196 | every landmark 0..20 is the endpoint of some line |
| `Skeleton.PalmLinkListedTwice` | src/pages/Index.tsx:189-196 | entries 4 and 20 are both (0, 5), and no other two entries coincide |
| `Skeleton.DrawableIffComplete` | src/pages/Index.tsx:189-201 | every table entry can be read from a hand exactly when the hand has at least 21 landmarks |
| `Skeleton.DrawHandLandmarks` | src/pages/Index.tsx:178-220 | it throws exactly for a short hand; otherwise it gives width 2, colours #4ade80 and #60a5fa, one scaled line per table entry in order, and one radius-3 dot per landmark in order |
| `IndexPage.Page.constructor` | src/pages/Index.tsx:8-9 | the page starts in (detecting, off) |
| `IndexPage.Page.OnResults` | src/pages/Index.tsx:139-175 | no canvas: nothing changes; a throwing frame leaves the state alone; otherwise the state becomes the frame's decision, the overlay is cleared when no hand is reported and holds the first hand's sketch when that hand is complete; the bulb keeps matching the hand |
| `IndexPage.Page.OnCameraError` | src/pages/Index.tsx:92-94 | the hand state becomes error and the bulb power is unchanged |
| `IndexPage.Page.StatusLine` | src/pages/Index.tsx:252-261 | the page's own state never shows the "Initializing..." fallback |
| `IndexPage.Page.PowerLine` | src/pages/Index.tsx:318 | the label beside the bulb is the stored power's brightness in decimal followed by "%" |

## Left out

- Loading the detector library, `setOptions`, registering `onResults` and `close` (src/pages/Index.tsx:17-61): a foreign library behind an untyped handle. The detector's results are a parameter of `OnResults`.
- Webcam acquisition, `onloadedmetadata` and the toasts (src/pages/Index.tsx:64-104): browser I/O. Only the `error` state the failure path stores is kept, as `OnCameraError`.
- The frame pump `sendFramesToMediaPipe` (src/pages/Index.tsx:119-136): it reschedules itself through `requestAnimationFrame` and awaits a foreign call. Each detector result is modelled as one `OnResults` call.
- Canvas output (src/pages/Index.tsx:147, 185-219): the drawing is a value of exact reals, not floating-point pixels. The `clearRect` at line 147 is implicit in every overlay except `Untouched`. The arc angle `2 * Math.PI` is implicit in "full-circle dot".
- Skeleton.DrawHandLandmarks: for a short hand, the model drops the lines already stroked before the throw. It also drops the half-started path.
- The detector's z coordinate: the page never reads it.
- Landmark coordinates are exact reals, so NaN and ±Infinity are excluded. The count only compares coordinates, and for finite inputs those comparisons agree with floating point.
- `isLoading`, `isMediaPipeLoaded`, the contact-link animation and all JSX (src/pages/Index.tsx:10-11, 107-117, 263-368): UI.
- src/components/ThemeSwitcher.tsx, CameraToggle.tsx, BackgroundAnimations.tsx, HandTracking.tsx, src/types/mediapipe.d.ts and src/main.tsx: presentational widgets, DOM wiring, type declarations and bootstrap. None of them is part of this model.
