/**
 * The display-coordinate pipeline and the training payload of the single-sample
 * capture screen: tensor dimensions per orientation and platform, the Android
 * mirror, the scaling to preview coordinates, the keypoint and skeleton overlay,
 * and the two-field form that carries a labelled pose to the training server.
 * SVG elements are replaced by coordinate records.
 */
module SingleSender {
  import opened Common
  import opened Sequences
  import opened PoseDetection

  /** `Platform.OS`: Android, iOS, or any other value (for which neither platform flag is set). */
  datatype Platform = Android | IOS | OtherOS

  /** The screen orientation reported by the orientation source. */
  datatype Orientation = OrientationUnknown | PortraitUp | PortraitDown | LandscapeLeft | LandscapeRight

  /** Width of the resized camera tensor. */
  const OutputTensorWidth: real := 180.0

  /** Score threshold the screen declares; no operation applies it. */
  const MinKeypointScore: real := 0.3

  /** The shared secret sent with every sample. */
  const Secret: string := "uindy"

  /** Width-to-height ratio of the camera preview and of the tensor: 9:16 on iOS, 3:4 elsewhere. */
  function AspectRatio(p: Platform): (a: real)
    ensures a > 0.0
    ensures a == if p == IOS then 0.5625 else 0.75
  {
    if p == IOS then 9.0 / 16.0 else 3.0 / 4.0
  }

  /** Height of the resized camera tensor. */
  function OutputTensorHeight(p: Platform): (h: real)
    ensures h == if p == IOS then 320.0 else 240.0
  {
    OutputTensorWidth / AspectRatio(p)
  }

  /** Height of the camera preview for a window of width `previewWidth`. */
  function PreviewHeight(p: Platform, previewWidth: real): (h: real)
    ensures h == if p == IOS then previewWidth * 16.0 / 9.0 else previewWidth * 4.0 / 3.0
  {
    previewWidth / AspectRatio(p)
  }

  /** Whether the device is held upright, either way up. */
  predicate IsPortrait(o: Orientation)
    ensures IsPortrait(o) <==> o == PortraitUp || o == PortraitDown
    ensures !IsPortrait(o) <==> o in {OrientationUnknown, LandscapeLeft, LandscapeRight}
  {
    match o
    case PortraitUp | PortraitDown => true
    case _ => false
  }

  /** Tensor width: the fixed width, except in landscape off Android, where width and height swap. */
  function TensorWidth(o: Orientation, p: Platform): (w: real)
    ensures w > 0.0
    ensures w == OutputTensorWidth || w == OutputTensorHeight(p)
  {
    if IsPortrait(o) || p == Android then OutputTensorWidth else OutputTensorHeight(p)
  }

  /** Tensor height: the fixed height, except in landscape off Android, where width and height swap. */
  function TensorHeight(o: Orientation, p: Platform): (h: real)
    ensures h > 0.0
    ensures h == OutputTensorWidth || h == OutputTensorHeight(p)
  {
    if IsPortrait(o) || p == Android then OutputTensorHeight(p) else OutputTensorWidth
  }

  /** The tensor dimensions are the fixed pair, swapped exactly in landscape off Android. */
  lemma TensorDimensions(o: Orientation, p: Platform)
    ensures (IsPortrait(o) || p == Android) ==>
              TensorWidth(o, p) == OutputTensorWidth && TensorHeight(o, p) == OutputTensorHeight(p)
    ensures !(IsPortrait(o) || p == Android) ==>
              TensorWidth(o, p) == OutputTensorHeight(p) && TensorHeight(o, p) == OutputTensorWidth
    ensures multiset{TensorWidth(o, p), TensorHeight(o, p)} == multiset{OutputTensorWidth, OutputTensorHeight(p)}
  {
  }

  /** The tensor area does not depend on the orientation. */
  lemma TensorAreaIndependentOfOrientation(o1: Orientation, o2: Orientation, p: Platform)
    ensures TensorWidth(o1, p) * TensorHeight(o1, p) == TensorWidth(o2, p) * TensorHeight(o2, p)
    ensures TensorWidth(o1, p) * TensorHeight(o1, p) == OutputTensorWidth * OutputTensorHeight(p)
  {
  }

  /** The horizontal pre-transform: mirrored about the tensor width on Android, unchanged elsewhere. */
  function MirrorX(p: Platform, x: real): (r: real)
    ensures p == Android ==> r == OutputTensorWidth - x
    ensures p != Android ==> r == x
  {
    if p == Android then OutputTensorWidth - x else x
  }

  /** The mirror is its own inverse. */
  lemma MirrorInvolution(p: Platform, x: real)
    ensures MirrorX(p, MirrorX(p, x)) == x
  {
  }

  /** On Android the mirror axis is the tensor width, whatever the orientation. */
  lemma MirrorAboutTensorWidth(o: Orientation, x: real)
    ensures MirrorX(Android, x) == TensorWidth(o, Android) - x
    ensures MirrorX(Android, 50.0) == 130.0
  {
  }

  /** A position in preview coordinates. */
  datatype Point = Point(x: real, y: real)

  /** `v / extent * target`: a coordinate along an axis of length `extent`, rescaled to length `target`. */
  function Scale(v: real, extent: real, target: real): (r: real)
    requires extent != 0.0
  {
    v / extent * target
  }

  /** Preview position of a tensor position: mirror x on Android, then scale both axes to the preview. */
  function ScreenPoint(o: Orientation, p: Platform, previewWidth: real, x: real, y: real): (c: Point)
    ensures c.x == MirrorX(p, x) / TensorWidth(o, p) * previewWidth
    ensures c.y == y / TensorHeight(o, p) * PreviewHeight(p, previewWidth)
  {
    Point(Scale(MirrorX(p, x), TensorWidth(o, p), previewWidth),
          Scale(y, TensorHeight(o, p), PreviewHeight(p, previewWidth)))
  }

  lemma ScaleEdges(extent: real, target: real)
    requires extent != 0.0
    ensures Scale(0.0, extent, target) == 0.0
    ensures Scale(extent, extent, target) == target
  {
  }

  lemma ScaleMonotone(a: real, b: real, extent: real, target: real)
    requires a <= b && extent > 0.0 && target >= 0.0
    ensures Scale(a, extent, target) <= Scale(b, extent, target)
  {
    var qa, qb := a / extent, b / extent;
    assert qa <= qb;
    assert qa * target <= qb * target;
  }

  lemma UnscaleScale(v: real, extent: real, target: real)
    requires extent != 0.0 && target != 0.0
    ensures Scale(Scale(v, extent, target), target, extent) == v
  {
    var q := v / extent;
    assert q * extent == v;
    assert (q * target) / target == q;
  }

  /** The tensor's edges map to the preview's edges. */
  lemma ScreenEdges(o: Orientation, p: Platform, previewWidth: real, x: real, y: real)
    ensures MirrorX(p, x) == 0.0 ==> ScreenPoint(o, p, previewWidth, x, y).x == 0.0
    ensures MirrorX(p, x) == TensorWidth(o, p) ==> ScreenPoint(o, p, previewWidth, x, y).x == previewWidth
    ensures y == 0.0 ==> ScreenPoint(o, p, previewWidth, x, y).y == 0.0
    ensures y == TensorHeight(o, p) ==> ScreenPoint(o, p, previewWidth, x, y).y == PreviewHeight(p, previewWidth)
  {
    ScaleEdges(TensorWidth(o, p), previewWidth);
    ScaleEdges(TensorHeight(o, p), PreviewHeight(p, previewWidth));
  }

  /** Scaling preserves order along each axis (after the mirror) for a non-negative preview width. */
  lemma ScreenMonotone(o: Orientation, p: Platform, previewWidth: real, x1: real, y1: real, x2: real, y2: real)
    requires previewWidth >= 0.0
    ensures MirrorX(p, x1) <= MirrorX(p, x2) ==>
              ScreenPoint(o, p, previewWidth, x1, y1).x <= ScreenPoint(o, p, previewWidth, x2, y2).x
    ensures y1 <= y2 ==>
              ScreenPoint(o, p, previewWidth, x1, y1).y <= ScreenPoint(o, p, previewWidth, x2, y2).y
  {
    if MirrorX(p, x1) <= MirrorX(p, x2) {
      ScaleMonotone(MirrorX(p, x1), MirrorX(p, x2), TensorWidth(o, p), previewWidth);
    }
    if y1 <= y2 {
      ScaleMonotone(y1, y2, TensorHeight(o, p), PreviewHeight(p, previewWidth));
    }
  }

  /** The tensor position a preview position came from (the inverse of `ScreenPoint`). */
  function TensorPoint(o: Orientation, p: Platform, previewWidth: real, c: Point): (t: Point)
    requires previewWidth != 0.0
    ensures t.x == MirrorX(p, c.x / previewWidth * TensorWidth(o, p))
    ensures t.y == c.y / PreviewHeight(p, previewWidth) * TensorHeight(o, p)
  {
    Point(MirrorX(p, Scale(c.x, previewWidth, TensorWidth(o, p))),
          Scale(c.y, PreviewHeight(p, previewWidth), TensorHeight(o, p)))
  }

  /** For a non-degenerate preview, the tensor position is recovered from the preview position. */
  lemma ScreenRoundTrip(o: Orientation, p: Platform, previewWidth: real, x: real, y: real)
    requires previewWidth != 0.0
    ensures TensorPoint(o, p, previewWidth, ScreenPoint(o, p, previewWidth, x, y)) == Point(x, y)
  {
    UnscaleScale(MirrorX(p, x), TensorWidth(o, p), previewWidth);
    MirrorInvolution(p, x);
    UnscaleScale(y, TensorHeight(o, p), PreviewHeight(p, previewWidth));
  }

  /** JavaScript truthiness of `k.score ?? 0`: a present, non-zero score. */
  predicate HasScore(k: Keypoint)
    ensures HasScore(k) <==> k.score != None && k.score != Some(0.0)
  {
    k.score.Some? && k.score.value != 0.0
  }

  /** A keypoint marker, keyed by the keypoint's name. */
  datatype Circle = Circle(key: string, cx: real, cy: real)

  /**
   * A skeleton link between two keypoints, keyed by the index of its pair
   * (the rendered key is `skeletonls_` followed by this index in decimal).
   */
  datatype Line = Line(key: nat, x1: real, y1: real, x2: real, y2: real)

  /** What the overlay shows: an empty view, or the skeleton slots followed by the keypoint markers. */
  datatype Overlay = EmptyView | Svg(skeleton: seq<Option<Line>>, keypoints: seq<Circle>)

  function CircleFor(o: Orientation, p: Platform, previewWidth: real, k: Keypoint): (c: Circle)
    ensures c.key == "skeletonkp_" + k.name
    ensures Point(c.cx, c.cy) == ScreenPoint(o, p, previewWidth, k.x, k.y)
  {
    var s := ScreenPoint(o, p, previewWidth, k.x, k.y);
    Circle("skeletonkp_" + k.name, s.x, s.y)
  }

  /** One marker per keypoint with a truthy score, in keypoint order; no score threshold applies. */
  function KeypointCircles(o: Orientation, p: Platform, previewWidth: real, keypoints: seq<Keypoint>): (r: seq<Circle>)
    ensures |r| == |Filter(HasScore, keypoints)|
    ensures forall i :: 0 <= i < |r| ==> r[i] == CircleFor(o, p, previewWidth, Filter(HasScore, keypoints)[i])
  {
    var kept := Filter(HasScore, keypoints);
    seq(|kept|, i requires 0 <= i < |kept| => CircleFor(o, p, previewWidth, kept[i]))
  }

  /** The markers are drawn for exactly the keypoints with a present, non-zero score, in order. */
  lemma KeptKeypoints(keypoints: seq<Keypoint>, k: Keypoint)
    ensures IsSubsequence(Filter(HasScore, keypoints), keypoints)
    ensures k in Filter(HasScore, keypoints) <==> k in keypoints && k.score.Some? && k.score.value != 0.0
    ensures multiset(Filter(HasScore, keypoints))[k] == if HasScore(k) then multiset(keypoints)[k] else 0
    ensures k in keypoints && k.score.Some? && 0.0 < k.score.value <= MinKeypointScore ==>
              k in Filter(HasScore, keypoints)
  {
    FilterIsSubsequence(HasScore, keypoints);
    FilterMembership(HasScore, keypoints, k);
    FilterCount(HasScore, keypoints, k);
  }

  /** Every index of every pair addresses a keypoint. */
  predicate PairsInRange(n: nat, pairs: seq<(int, int)>)
    ensures pairs == [] ==> PairsInRange(n, pairs)
    ensures PairsInRange(n, pairs) ==> forall m :: 0 <= m < |pairs| ==> pairs[m].0 >= 0 && pairs[m].1 < n
    ensures (exists m :: 0 <= m < |pairs| && (pairs[m].0 >= n || pairs[m].1 < 0)) ==> !PairsInRange(n, pairs)
  {
    forall m :: 0 <= m < |pairs| ==> 0 <= pairs[m].0 < n && 0 <= pairs[m].1 < n
  }

  /** The skeleton slot of one pair: a line iff the first endpoint has a truthy score. */
  function SkeletonSlot(o: Orientation, p: Platform, previewWidth: real, keypoints: seq<Keypoint>,
                        pair: (int, int), key: nat): (r: Option<Line>)
    requires 0 <= pair.0 < |keypoints| && 0 <= pair.1 < |keypoints|
    ensures r.Some? <==> HasScore(keypoints[pair.0])
    ensures r.Some? ==> r.value.key == key
    ensures r.Some? ==>
              Point(r.value.x1, r.value.y1) == ScreenPoint(o, p, previewWidth, keypoints[pair.0].x, keypoints[pair.0].y) &&
              Point(r.value.x2, r.value.y2) == ScreenPoint(o, p, previewWidth, keypoints[pair.1].x, keypoints[pair.1].y)
  {
    var kp1, kp2 := keypoints[pair.0], keypoints[pair.1];
    var c1 := ScreenPoint(o, p, previewWidth, kp1.x, kp1.y);
    var c2 := ScreenPoint(o, p, previewWidth, kp2.x, kp2.y);
    if HasScore(kp1) then Some(Line(key, c1.x, c1.y, c2.x, c2.y)) else None
  }

  /** The second endpoint's score never affects its link. */
  lemma SecondScoreIgnored(o: Orientation, p: Platform, previewWidth: real, keypoints: seq<Keypoint>,
                           pair: (int, int), key: nat, score: Option<real>)
    requires 0 <= pair.0 < |keypoints| && 0 <= pair.1 < |keypoints| && pair.0 != pair.1
    ensures SkeletonSlot(o, p, previewWidth, keypoints[pair.1 := keypoints[pair.1].(score := score)], pair, key)
         == SkeletonSlot(o, p, previewWidth, keypoints, pair, key)
  {
  }

  /** One slot per pair, in pair order; an index outside the keypoints makes the mapping throw. */
  function Skeleton(o: Orientation, p: Platform, previewWidth: real, keypoints: seq<Keypoint>,
                    pairs: seq<(int, int)>): (r: Result<seq<Option<Line>>, Fault>)
    ensures r.Success? <==> PairsInRange(|keypoints|, pairs)
    ensures r.Failure? ==> r.error == TypeError
    ensures r.Success? ==> |r.value| == |pairs|
    ensures r.Success? ==>
              forall m :: 0 <= m < |pairs| ==> r.value[m] == SkeletonSlot(o, p, previewWidth, keypoints, pairs[m], m)
  {
    if PairsInRange(|keypoints|, pairs) then
      Success(seq(|pairs|, m requires 0 <= m < |pairs| => SkeletonSlot(o, p, previewWidth, keypoints, pairs[m], m)))
    else
      Failure(TypeError)
  }

  /**
   * The overlay for the latest estimator result: nothing without a hypothesis, otherwise
   * the skeleton of the first hypothesis followed by its keypoint markers.
   */
  function RenderPose(o: Orientation, p: Platform, previewWidth: real, poses: Option<seq<Pose>>,
                      pairs: seq<(int, int)>): (r: Result<Overlay, Fault>)
    ensures (poses.None? || poses.value == []) ==> r == Success(EmptyView)
    ensures poses.Some? && poses.value != [] ==>
              var kps := poses.value[0].keypoints;
              (r.Success? <==> PairsInRange(|kps|, pairs)) &&
              (r.Failure? ==> r.error == TypeError) &&
              (r.Success? ==> r.value == Svg(Skeleton(o, p, previewWidth, kps, pairs).value,
                                             KeypointCircles(o, p, previewWidth, kps)))
  {
    if poses.Some? && |poses.value| > 0 then
      var kps := poses.value[0].keypoints;
      var skeleton := Skeleton(o, p, previewWidth, kps, pairs);
      if skeleton.Failure? then Failure(skeleton.error)
      else Success(Svg(skeleton.value, KeypointCircles(o, p, previewWidth, kps)))
    else
      Success(EmptyView)
  }

  /** Only the first hypothesis is ever read. */
  lemma RenderPoseReadsFirstPoseOnly(o: Orientation, p: Platform, previewWidth: real, first: Pose,
                                     rest: seq<Pose>, pairs: seq<(int, int)>)
    ensures RenderPose(o, p, previewWidth, Some([first] + rest), pairs)
         == RenderPose(o, p, previewWidth, Some([first]), pairs)
  {
  }

  /** `setCurrentPoseJson`: the 3-D keypoints of the first hypothesis; with none, the read throws. */
  function CurrentPoseJson(poses: Option<seq<Pose>>): (r: Result<seq<Keypoint>, Fault>)
    ensures r.Success? <==> poses.Some? && |poses.value| > 0
    ensures r.Success? ==> r.value == poses.value[0].keypoints3D
    ensures r.Failure? ==> r.error == TypeError
  {
    if poses.Some? && |poses.value| > 0 then Success(poses.value[0].keypoints3D) else Failure(TypeError)
  }

  /** The labelled sample; `keypoints` is the stored JSON pose, which is `null` until one is stored. */
  datatype PosePayload = PosePayload(name: string, keypoints: Option<seq<Keypoint>>)

  /** `getCurrentPoseData`: the current label and the stored pose, as the payload record. */
  function CurrentPoseData(currentPoseName: string, jsonPose: Option<seq<Keypoint>>): (r: PosePayload)
    ensures r.name == currentPoseName && r.keypoints == jsonPose
  {
    PosePayload(currentPoseName, jsonPose)
  }

  /** A form field value: plain text or the serialised payload. */
  datatype FormValue = Text(text: string) | Data(payload: PosePayload)

  /** A multipart form as its fields in append order. */
  type Form = seq<(string, FormValue)>

  /** The values of the fields stored under `key`, in append order. */
  function GetAll(form: Form, key: string): (r: seq<FormValue>)
    ensures |r| == |Filter((f: (string, FormValue)) => f.0 == key, form)|
    ensures forall i :: 0 <= i < |r| ==> r[i] == Filter((f: (string, FormValue)) => f.0 == key, form)[i].1
  {
    if form == [] then []
    else (if form[0].0 == key then [form[0].1] else []) + GetAll(form[1..], key)
  }

  /** Appending a field adds its value to the end of its key's values and leaves every other key alone. */
  lemma {:induction false} GetAllAppend(form: Form, key: string, value: FormValue, other: string)
    ensures GetAll(form + [(key, value)], other) == GetAll(form, other) + (if other == key then [value] else [])
  {
    if form != [] {
      assert (form + [(key, value)])[1..] == form[1..] + [(key, value)];
      GetAllAppend(form[1..], key, value, other);
    } else {
      assert [(key, value)][1..] == [];
    }
  }

  /** `sendPoseData` up to the request: a fresh form with the secret, then the payload. */
  method BuildPoseForm(currentPoseName: string, jsonPose: Option<seq<Keypoint>>) returns (form: Form)
    ensures form == [("secret", Text(Secret)), ("data", Data(CurrentPoseData(currentPoseName, jsonPose)))]
    ensures GetAll(form, "secret") == [Text(Secret)]
    ensures GetAll(form, "data") == [Data(PosePayload(currentPoseName, jsonPose))]
    ensures forall k :: k != "secret" && k != "data" ==> GetAll(form, k) == []
  {
    var poseData := CurrentPoseData(currentPoseName, jsonPose);
    form := [];
    form := form + [("secret", Text(Secret))];
    form := form + [("data", Data(poseData))];
    forall k
      ensures GetAll(form, k) == (if k == "secret" then [Text(Secret)] else []) + (if k == "data" then [Data(poseData)] else [])
    {
      GetAllAppend([], "secret", Text(Secret), k);
      GetAllAppend([("secret", Text(Secret))], "data", Data(poseData), k);
    }
  }
}
