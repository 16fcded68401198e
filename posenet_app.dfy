/**
 * The PoseNet overlay of the original single-screen app: keypoints above a fixed
 * confidence are drawn where the estimator put them, and the viewBox does the scaling.
 */
module PosenetApp {
  import opened Common
  import opened Sequences

  datatype Position = Position(x: real, y: real)

  /** A PoseNet keypoint: body part, image-space position and confidence. */
  datatype Keypoint = Keypoint(part: string, position: Position, score: real)

  /** A PoseNet single-pose estimate. */
  datatype Pose = Pose(score: real, keypoints: seq<Keypoint>)

  /** The confidence a keypoint must exceed to be drawn. */
  const MinKeypointScore: real := 0.2

  /** The resized tensor, whose size is the overlay's viewBox. */
  const InputTensorWidth: real := 152.0
  const InputTensorHeight: real := 200.0

  /** A keypoint marker, keyed by its position among the drawn markers. */
  datatype Dot = Dot(key: nat, cx: real, cy: real)

  /** A skeleton link, keyed by its position in the list of adjacent keypoints. */
  datatype Segment = Segment(key: nat, x1: real, y1: real, x2: real, y2: real)

  /** The overlay: a viewBox of the tensor's size holding the skeleton, then the markers. */
  datatype Drawing = Drawing(viewWidth: real, viewHeight: real, skeleton: seq<Segment>, keypoints: seq<Dot>)

  /** Whether a keypoint is drawn: its confidence strictly exceeds the threshold. */
  predicate AboveThreshold(k: Keypoint)
    ensures AboveThreshold(k) <==> k.score > 0.2
  {
    k.score > MinKeypointScore
  }

  /** One marker per keypoint scoring above the threshold, in keypoint order, at its own position. */
  function KeypointDots(keypoints: seq<Keypoint>): (r: seq<Dot>)
    ensures |r| == |Filter(AboveThreshold, keypoints)|
    ensures forall i :: 0 <= i < |r| ==>
              var k := Filter(AboveThreshold, keypoints)[i];
              r[i] == Dot(i, k.position.x, k.position.y)
  {
    var kept := Filter(AboveThreshold, keypoints);
    seq(|kept|, i requires 0 <= i < |kept| => Dot(i, kept[i].position.x, kept[i].position.y))
  }

  /** The kept keypoints are exactly those scoring strictly above 0.2, in order and with their multiplicities. */
  lemma KeptKeypoints(keypoints: seq<Keypoint>, k: Keypoint)
    ensures IsSubsequence(Filter(AboveThreshold, keypoints), keypoints)
    ensures k in Filter(AboveThreshold, keypoints) <==> k in keypoints && k.score > 0.2
    ensures multiset(Filter(AboveThreshold, keypoints))[k] == if k.score > 0.2 then multiset(keypoints)[k] else 0
    ensures k.score == 0.2 ==> k !in Filter(AboveThreshold, keypoints)
  {
    FilterIsSubsequence(AboveThreshold, keypoints);
    FilterMembership(AboveThreshold, keypoints, k);
    FilterCount(AboveThreshold, keypoints, k);
  }

  /** One link per adjacent pair, from the first keypoint's position to the second's. */
  function SkeletonSegments(adjacent: seq<(Keypoint, Keypoint)>): (r: seq<Segment>)
    ensures |r| == |adjacent|
    ensures forall i :: 0 <= i < |r| ==>
              r[i] == Segment(i, adjacent[i].0.position.x, adjacent[i].0.position.y,
                                 adjacent[i].1.position.x, adjacent[i].1.position.y)
  {
    seq(|adjacent|, i requires 0 <= i < |adjacent| =>
      Segment(i, adjacent[i].0.position.x, adjacent[i].0.position.y,
                 adjacent[i].1.position.x, adjacent[i].1.position.y))
  }

  /**
   * `renderPose`: nothing without a pose; otherwise the tensor-sized drawing of the
   * given adjacent keypoints and of the keypoints above the threshold.
   */
  function RenderPose(pose: Option<Pose>, adjacent: seq<(Keypoint, Keypoint)>): (r: Option<Drawing>)
    ensures r.None? <==> pose.None?
    ensures r.Some? ==> r.value.viewWidth == InputTensorWidth && r.value.viewHeight == InputTensorHeight
    ensures r.Some? ==> r.value.keypoints == KeypointDots(pose.value.keypoints)
    ensures r.Some? ==> r.value.skeleton == SkeletonSegments(adjacent)
  {
    match pose
    case None => None
    case Some(p) =>
      Some(Drawing(InputTensorWidth, InputTensorHeight, SkeletonSegments(adjacent), KeypointDots(p.keypoints)))
  }
}
