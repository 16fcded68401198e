# Pose sample pipeline: display coordinates, overlay filters and training payload

This project models the deterministic core of a mobile capture tool that turns a
stream of pose-estimation results into labelled training samples for a
body-pose classifier, and proves properties of that model in Dafny.

Three pieces of the application are modelled:

- **The single-sample capture screen** (`src/SingleSender.js`, module `SingleSender`):
  the orientation predicate, the tensor dimensions (swapped in landscape off
  Android), the Android x-mirror, the scaling from tensor to preview
  coordinates, the keypoint markers (kept when their score is truthy), the
  skeleton links (one slot per adjacent pair, drawn when the *first* endpoint has
  a truthy score), the payload `{name, keypoints}` and the two-field form
  (`secret`, then `data`).
- **The classifier input flattener** (`src/ModelService.js`, module `ModelService`):
  `formatArray`, which turns the first hypothesis's 33 3-D keypoints into a
  99-value row. As written it can never return a value (see Findings).
- **The PoseNet overlay of the first app shell** (`App.js`, module `PosenetApp`):
  keypoints scoring strictly above 0.2, drawn unscaled in a 152×200 viewBox.

Supporting modules: `Common` (Option, Result and the JavaScript exceptions
`TypeError`/`ReferenceError`), `Sequences` (`Array.prototype.filter` with
lemmas that say it keeps exactly the matching elements, in order, with their
multiplicities) and `PoseDetection` (the pose-estimation library's result
records).

Modelling choices:

- IEEE doubles are modelled as `real`; `Platform.OS`, the window width from
  `Dimensions.get`, the screen orientation, the estimator's hypotheses and the
  skeleton's adjacent index pairs are parameters.
- `Platform` has a third value, `OtherOS`. On such a platform neither
  `IS_ANDROID` nor `IS_IOS` holds: x is not mirrored, the 3:4 ratio applies, and
  the tensor dimensions swap in landscape.
- The screen's initial orientation state is the orientation enumeration object
  itself. It equals neither portrait value, so it behaves like
  `OrientationUnknown`.
- A JavaScript exception is a `Failure` result. A skeleton pair with an index
  outside the keypoints makes `kp1.x` or `kp2.x` read from `undefined`, so the
  whole overlay throws. Reading `poses[0]` of a missing or empty pose list throws
  in `setCurrentPoseJson`.
- SVG elements are coordinate records (`Circle`, `Line`, `Dot`, `Segment`); a
  skeleton slot whose link is not drawn (the map callback returns
  `undefined`) is `None`.
- The JSON payload is a record rather than its `JSON.stringify` text, and the
  multipart form is a sequence of (key, value) fields.

Two details of the capture screen that a reader might expect otherwise:

- `MIN_KEYPOINT_SCORE = 0.3` is declared with the comment "The score threshold
  for pose detection results" (src/SingleSender.js:28-29) but never applied: the
  filter at src/SingleSender.js:131 keeps any truthy score
  (`SingleSender.KeptKeypoints`).
- The orientation-dependent preview factors survive only as comments
  (src/SingleSender.js:138, 141, 168-177), so x always scales to the preview
  width and y always to the preview height.

## Model

| member | source | states |
|---|---|---|
| `SingleSender.AspectRatio` | src/SingleSender.js:26-37 | the preview and tensor width-to-height ratio is 9/16 on iOS and 3/4 on every other platform, and positive |
| `SingleSender.OutputTensorHeight` | src/SingleSender.js:36-37 | the tensor height is 320 on iOS (180 at 9:16) and 240 elsewhere (180 at 3:4) |
| `SingleSender.PreviewHeight` | src/SingleSender.js:25-26 | the preview height is the window width × 16/9 on iOS and × 4/3 elsewhere |
| `SingleSender.IsPortrait` | src/SingleSender.js:244-249 | portrait exactly for PORTRAIT_UP and PORTRAIT_DOWN; landscape and unknown orientations are not portrait |
| `SingleSender.TensorWidth` | src/SingleSender.js:251-260 | the tensor width is positive and is either the fixed width or the fixed height |
| `SingleSender.TensorHeight` | src/SingleSender.js:262-266 | the tensor height is positive and is either the fixed width or the fixed height |
| `SingleSender.TensorDimensions` | src/SingleSender.js:251-266 | (width, height) is (180, tensor height) when portrait or on Android, swapped otherwise; always a permutation of the fixed pair |
| `SingleSender.TensorAreaIndependentOfOrientation` | src/SingleSender.js:251-266 | width × height is the same for every orientation and equals 180 × tensor height |
| `SingleSender.MirrorX` | src/SingleSender.js:134 | x becomes 180 − x on Android and is unchanged on every other platform |
| `SingleSender.MirrorInvolution` | src/SingleSender.js:134 | mirroring twice gives back the original x |
| `SingleSender.MirrorAboutTensorWidth` | src/SingleSender.js:134-137 | on Android the mirror axis equals the tensor width in every orientation; x = 50 becomes 130 |
| `SingleSender.ScreenPoint` | src/SingleSender.js:134-141 | preview x is the mirrored x over the tensor width times the window width; preview y is y over the tensor height times the preview height, in every orientation |
| `SingleSender.TensorPoint` | src/SingleSender.js:134-141 | the inverse map: preview x over the window width times the tensor width, then mirrored; preview y over the preview height times the tensor height |
| `SingleSender.ScreenEdges` | src/SingleSender.js:136-141 | mirrored x = 0 maps to 0 and x = tensor width to the preview width; y = 0 maps to 0 and y = tensor height to the preview height |
| `SingleSender.ScreenMonotone` | src/SingleSender.js:136-141 | for a non-negative window width, preview coordinates keep the order of mirrored x and of y |
| `SingleSender.ScreenRoundTrip` | src/SingleSender.js:134-141 | for a non-zero window width, the tensor position is recovered exactly from its preview position |
| `SingleSender.HasScore` | src/SingleSender.js:131 | a keypoint counts as scored iff its score is present and non-zero (the truthiness of `k.score ?? 0` and of `kp1.score`) |
| `SingleSender.CircleFor` | src/SingleSender.js:142-153 | a marker is keyed `skeletonkp_<name>` and sits at the keypoint's preview position |
| `SingleSender.KeypointCircles` | src/SingleSender.js:130-155 | one marker per keypoint whose score is truthy, in keypoint order, each at that keypoint's preview position |
| `SingleSender.KeptKeypoints` | src/SingleSender.js:29-131 | the kept keypoints are an order-preserving subsequence; a keypoint is kept iff its score is present and non-zero, with all its occurrences; scores at or below 0.3 are kept too |
| `SingleSender.PairsInRange` | src/SingleSender.js:158-164 | when every pair's endpoints address keypoints, every index is non-negative and below the keypoint count; any pair with an index outside that range makes it false |
| `SingleSender.SkeletonSlot` | src/SingleSender.js:158-189 | a pair draws a line iff its first endpoint's score is truthy; the endpoints use the keypoints' preview transform |
| `SingleSender.SecondScoreIgnored` | src/SingleSender.js:178-189 | changing the second endpoint's score never changes the pair's slot |
| `SingleSender.Skeleton` | src/SingleSender.js:157-190 | one slot per pair in pair order; throws a TypeError iff some pair index is outside the keypoints |
| `SingleSender.RenderPose` | src/SingleSender.js:128-196 | missing or empty hypotheses give the empty view; otherwise the first hypothesis's skeleton and markers, or the skeleton's TypeError |
| `SingleSender.RenderPoseReadsFirstPoseOnly` | src/SingleSender.js:129-130 | hypotheses after the first never change the overlay |
| `SingleSender.CurrentPoseJson` | src/SingleSender.js:198-201 | the stored pose is the first hypothesis's 3-D keypoints; with no hypothesis the read throws a TypeError |
| `SingleSender.CurrentPoseData` | src/SingleSender.js:203-211 | the payload carries exactly the current label as name and the stored pose (possibly null) as keypoints |
| `SingleSender.GetAll` | src/SingleSender.js:217-219 | the values under a key are exactly the values of the fields with that key, in append order |
| `SingleSender.GetAllAppend` | src/SingleSender.js:217-219 | appending a field adds its value at the end of its key's values and leaves every other key's values unchanged |
| `SingleSender.BuildPoseForm` | src/SingleSender.js:213-219 | the form is exactly `secret = 'uindy'` then `data = payload`; each key has exactly one value and no other key has any |
| `Sequences.Filter` | src/SingleSender.js:131 | the filtered sequence is no longer than the input and all its elements satisfy the predicate |
| `Sequences.FilterIsSubsequence` | src/SingleSender.js:131 | filtering keeps the input's order |
| `Sequences.FilterCount` | App.js:88 | each matching element keeps all its occurrences and each non-matching element keeps none |
| `Sequences.FilterMembership` | App.js:88 | an element is in the result iff it is in the input and matches |
| `Sequences.FilterIdempotent` | App.js:88 | filtering twice equals filtering once |
| `ModelService.Flatten` | src/ModelService.js:22-29 | the row holds three values per keypoint |
| `ModelService.FlattenAt` | src/ModelService.js:22-27 | entries 3i, 3i+1, 3i+2 are keypoint i's x, y and z |
| `ModelService.FlattenSnoc` | src/ModelService.js:23-26 | one more keypoint appends exactly its x, y, z |
| `ModelService.Formatted` | src/ModelService.js:18-33 | a row of 99 values iff there is a hypothesis with at least 33 3-D keypoints; otherwise a ReferenceError for no hypothesis or a TypeError for a short keypoint list |
| `ModelService.FormattedLayout` | src/ModelService.js:22-27 | for i < 33 a successful row has the first hypothesis's keypoint i at entries 3i, 3i+1, 3i+2 |
| `ModelService.FormattedReadsFirst33` | src/ModelService.js:22-26 | later hypotheses never affect the result; when the first hypothesis has at least 33 3-D keypoints, keypoints past the 33rd do not either |
| `ModelService.FormatArray` | src/ModelService.js:18-33 | the push loop returns exactly the intended result `Formatted(poses)` |
| `ModelService.FormatArrayAsWritten` | src/ModelService.js:19-33 | the function as written throws for every input |
| `ModelService.AsWrittenScopeCounterexample` | src/ModelService.js:19-33 | on a full 33-keypoint hypothesis the written code throws a ReferenceError while the intended result is a 99-value row |
| `PosenetApp.AboveThreshold` | App.js:84-88 | a keypoint is drawn iff its score is strictly greater than 0.2 |
| `PosenetApp.KeypointDots` | App.js:87-98 | one marker per keypoint above the threshold, in order, keyed by its drawn index, at its own unscaled position |
| `PosenetApp.KeptKeypoints` | App.js:84-88 | the kept keypoints are an order-preserving subsequence, kept iff score > 0.2 with all occurrences; a score of exactly 0.2 is dropped |
| `PosenetApp.SkeletonSegments` | App.js:103-113 | one link per adjacent pair, in order, between the two keypoints' own positions |
| `PosenetApp.RenderPose` | App.js:83-123 | no pose gives nothing; a pose gives a 152×200 viewBox with the skeleton links and the kept markers |

## Findings

| source | as written | input that shows it | evidently intended | confidence | as-written member | corrected member |
|---|---|---|---|---|---|---|
| src/ModelService.js:19-33 | `let arr_expanded` is scoped to the `if` block, and `return arr_expanded` comes after the block, so the return throws a ReferenceError for every input | one hypothesis with 33 3-D keypoints | return the 99-value `[x, y, z, …]` row of the first hypothesis's 33 keypoints | not executed; follows from block scoping of `let` | `ModelService.FormatArrayAsWritten`, `ModelService.AsWrittenScopeCounterexample` | `ModelService.FormatArray`, `ModelService.Formatted` |

For no hypothesis the intended result is not evident: `undefined` if the binding were hoisted with `var`, an empty array if it were declared before the `if`. The corrected model keeps the ReferenceError there.

## Left out

- The camera/estimator render loops (`handleCameraStream` in both screens): asynchronous, self-rescheduling through `requestAnimationFrame`, releasing tensors and swallowing estimator exceptions. This is concurrency and foreign-resource plumbing.
- The pose-estimation libraries: `estimatePoses`, `getAdjacentPairs` and PoseNet's `getAdjacentKeyPoints` are foreign calls. Their results (hypotheses, index pairs, adjacent keypoint pairs) are parameters.
- The `fetch` POST in `sendPoseData`, and `classifyPose` with its model loading: network I/O.
- React state timing: the save button calls `setCurrentPoseJson` and then `sendPoseData` in the same handler. Because the state update is asynchronous, the form carries the previously stored pose. The payload is modelled as a function of its explicit inputs.
- The exact JSON text produced by `JSON.stringify`: the payload is a record.
- IEEE rounding, NaN scores (also falsy in JavaScript) and negative zero: numbers are `real`.
- Drawing: SVG/canvas output, styles and component layout are replaced by coordinate records.
- The other app shells, navigation, configuration and the UI test, which asserts nothing.
- A timed multi-frame sender (`src/TimedSender.js`, imported at src/PoseTrainer.js:6) is not part of this model; nothing here models a frame buffer.
- A `null` or `undefined` argument to `formatArray` (a TypeError at `poses.length`, src/ModelService.js:19) and a hypothesis without `keypoints3D` (which `setCurrentPoseJson` would store as `undefined`): the model's pose list is a sequence and every hypothesis carries its 3-D keypoints.
