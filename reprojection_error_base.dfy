/**
 * The declared shape of okvis's reprojection cost functions: two residuals over three
 * parameter blocks (the pose, the homogeneous landmark and the camera extrinsics), with a
 * 2-vector measurement and 2x2 information and covariance matrices.
 */
module ReprojectionErrorBase {
  import opened Geometry

  /** An unsigned 64-bit integer, as the camera id is stored. */
  newtype uint64 = x: int | 0 <= x < 0x1_0000_0000_0000_0000

  /** The number of residuals of the cost function. */
  const NumResiduals: nat := 2

  /** The parameter blocks of the cost function, in their declared order. */
  datatype ParameterBlock = Pose | HomogeneousLandmark | Extrinsics

  /** The declared parameter blocks, in order. */
  const Blocks: seq<ParameterBlock> := [Pose, HomogeneousLandmark, Extrinsics]

  /** The declared size of each parameter block. */
  function BlockSize(b: ParameterBlock): (n: nat)
    ensures b == HomogeneousLandmark <==> n == 4
    ensures b != HomogeneousLandmark <==> n == 7
  {
    match b
    case Pose => 7
    case HomogeneousLandmark => 4
    case Extrinsics => 7
  }

  /** The parameter block sizes of the cost function, in the declared order. */
  const ParameterBlockSizes: seq<nat> := [7, 4, 7]

  /** The size list is the size of each declared block, in order. */
  lemma ParameterBlockSizesFollowBlocks()
    ensures |ParameterBlockSizes| == |Blocks|
    ensures forall i :: 0 <= i < |Blocks| ==> ParameterBlockSizes[i] == BlockSize(Blocks[i])
  {
  }

  /** The measurement type of the 2-D variant. */
  type Measurement = Vec2

  /** The information and covariance type of the 2-D variant. */
  type Covariance = Mat2
}
