/**
 * The flattener that turns the first hypothesis's 33 three-dimensional
 * keypoints into the classifier's `[x, y, z, x, y, z, ...]` input row.
 */
module ModelService {
  import opened Common
  import opened PoseDetection

  /** Number of BlazePose landmarks the flattener reads. */
  const KeypointCount: nat := 33

  /** The coordinates of `keypoints`, three per keypoint, in keypoint order. */
  function Flatten(keypoints: seq<Keypoint>): (r: seq<real>)
    ensures |r| == 3 * |keypoints|
  {
    if keypoints == [] then []
    else [keypoints[0].x, keypoints[0].y, keypoints[0].z] + Flatten(keypoints[1..])
  }

  /** Entry `3i`, `3i+1`, `3i+2` of the flattened row are the x, y and z of keypoint `i`. */
  lemma {:induction false} FlattenAt(keypoints: seq<Keypoint>, i: nat)
    requires i < |keypoints|
    ensures Flatten(keypoints)[3 * i] == keypoints[i].x
    ensures Flatten(keypoints)[3 * i + 1] == keypoints[i].y
    ensures Flatten(keypoints)[3 * i + 2] == keypoints[i].z
  {
    if i > 0 {
      FlattenAt(keypoints[1..], i - 1);
    }
  }

  /** Flattening one more keypoint appends its three coordinates. */
  lemma {:induction false} FlattenSnoc(keypoints: seq<Keypoint>, k: Keypoint)
    ensures Flatten(keypoints + [k]) == Flatten(keypoints) + [k.x, k.y, k.z]
  {
    if keypoints == [] {
      assert [k][1..] == [];
    } else {
      assert (keypoints + [k])[1..] == keypoints[1..] + [k];
      FlattenSnoc(keypoints[1..], k);
    }
  }

  /**
   * What `formatArray` evidently means to return: the flattened first 33 keypoints of the
   * first hypothesis. Reading past the end of `keypoints3D` throws; for no hypothesis the
   * `return` names an undeclared binding.
   */
  function Formatted(poses: seq<Pose>): (r: Result<seq<real>, Fault>)
    ensures r.Success? <==> |poses| > 0 && |poses[0].keypoints3D| >= KeypointCount
    ensures |poses| == 0 ==> r == Failure(ReferenceError("arr_expanded"))
    ensures |poses| > 0 && |poses[0].keypoints3D| < KeypointCount ==> r == Failure(TypeError)
    ensures r.Success? ==> |r.value| == 3 * KeypointCount
  {
    if |poses| == 0 then Failure(ReferenceError("arr_expanded"))
    else if |poses[0].keypoints3D| < KeypointCount then Failure(TypeError)
    else Success(Flatten(poses[0].keypoints3D[..KeypointCount]))
  }

  /** A successful row holds, for each of the 33 landmarks, its x, y and z in that order. */
  lemma FormattedLayout(poses: seq<Pose>, i: nat)
    requires Formatted(poses).Success? && i < KeypointCount
    ensures Formatted(poses).value[3 * i] == poses[0].keypoints3D[i].x
    ensures Formatted(poses).value[3 * i + 1] == poses[0].keypoints3D[i].y
    ensures Formatted(poses).value[3 * i + 2] == poses[0].keypoints3D[i].z
  {
    FlattenAt(poses[0].keypoints3D[..KeypointCount], i);
  }

  /** Only the first hypothesis, and only its first 33 keypoints, are read. */
  lemma FormattedReadsFirst33(first: Pose, rest: seq<Pose>, extra: seq<Keypoint>)
    ensures Formatted([first] + rest) == Formatted([first])
    ensures |first.keypoints3D| >= KeypointCount ==>
              Formatted([first]) == Formatted([first.(keypoints3D := first.keypoints3D + extra)])
  {
    assert |first.keypoints3D| >= KeypointCount ==> (first.keypoints3D + extra)[..KeypointCount] == first.keypoints3D[..KeypointCount];
  }

  /** `formatArray`, with the result row built by three pushes per landmark. */
  method FormatArray(poses: seq<Pose>) returns (r: Result<seq<real>, Fault>)
    ensures r == Formatted(poses)
  {
    if |poses| > 0 {
      var keypoints3D := poses[0].keypoints3D;
      var expanded: seq<real> := [];
      for i := 0 to KeypointCount
        invariant i <= |keypoints3D|
        invariant expanded == Flatten(keypoints3D[..i])
      {
        if i >= |keypoints3D| {
          return Failure(TypeError);
        }
        FlattenSnoc(keypoints3D[..i], keypoints3D[i]);
        assert keypoints3D[..i + 1] == keypoints3D[..i] + [keypoints3D[i]];
        expanded := expanded + [keypoints3D[i].x];
        expanded := expanded + [keypoints3D[i].y];
        expanded := expanded + [keypoints3D[i].z];
      }
      return Success(expanded);
    }
    return Failure(ReferenceError("arr_expanded"));
  }

  /**
   * `formatArray` as written: `arr_expanded` is declared with `let` inside the `if` block,
   * so the `return` after the block never sees it, whatever the input. A short
   * `keypoints3D` throws inside the loop first.
   */
  function FormatArrayAsWritten(poses: seq<Pose>): (r: Result<seq<real>, Fault>)
    ensures r.Failure?
  {
    if |poses| > 0 && |poses[0].keypoints3D| < KeypointCount then Failure(TypeError)
    else Failure(ReferenceError("arr_expanded"))
  }

  /** A complete BlazePose hypothesis: the written code throws where the intended one returns 99 values. */
  lemma AsWrittenScopeCounterexample()
    ensures var pose := Pose([], seq(KeypointCount, i => Keypoint("", i as real, 0.0, 0.0, Some(1.0))));
            FormatArrayAsWritten([pose]) == Failure(ReferenceError("arr_expanded")) &&
            Formatted([pose]).Success? && |Formatted([pose]).value| == 99
  {
  }
}
