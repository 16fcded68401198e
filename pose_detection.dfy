/** The results handed over by the pose-estimation library (BlazePose through `estimatePoses`). */
module PoseDetection {
  import opened Common

  /** One body landmark of a hypothesis. The score may be missing. */
  datatype Keypoint = Keypoint(name: string, x: real, y: real, z: real, score: Option<real>)

  /** One pose hypothesis: image-space keypoints and their 3-D counterparts. */
  datatype Pose = Pose(keypoints: seq<Keypoint>, keypoints3D: seq<Keypoint>)
}
