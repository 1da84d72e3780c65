/**
 * The bookkeeping surface of okvis's 2-D keypoint reprojection error: the stored measurement,
 * shared camera geometry, camera id and weighting matrices with their setters and getters,
 * and the fixed shape the cost function reports to the solver.
 *
 * The camera geometry is a shared reference that may be null; it is modelled as an optional
 * value of the geometry type. The class hierarchy (ReprojectionErrorBase,
 * ReprojectionError2dBase, ReprojectionError) is flattened into one class.
 */
module ReprojectionErrors {
  import opened Wrappers
  import opened Geometry
  import opened ReprojectionErrorBase

  /** The failure of the bounds-checked lookup of a parameter block size (std::out_of_range). */
  datatype OutOfRange = OutOfRange(index: nat)

  /** The 2-D reprojection error of one measurement, for a camera geometry type G. */
  class ReprojectionError<G> {
    var cameraId: uint64
    var measurement: Measurement
    var cameraGeometry: Option<G>
    var information: Covariance
    var squareRootInformation: Covariance
    var covariance: Covariance

    /** cameraId(). */
    function CameraId(): (c: uint64)
      reads this
      ensures c == cameraId
    {
      cameraId
    }

    /** measurement(). */
    function Measurement(): (m: Measurement)
      reads this
      ensures m == measurement
    {
      measurement
    }

    /** information(). */
    function Information(): (m: Covariance)
      reads this
      ensures m == information
    {
      information
    }

    /** covariance(). */
    function Covariance(): (m: Covariance)
      reads this
      ensures m == covariance
    {
      covariance
    }

    /** setCameraId: afterwards cameraId() returns c; nothing else changes. */
    method SetCameraId(c: uint64)
      modifies this
      ensures CameraId() == c
      ensures Measurement() == old(Measurement()) && cameraGeometry == old(cameraGeometry)
      ensures Information() == old(Information()) && Covariance() == old(Covariance())
      ensures squareRootInformation == old(squareRootInformation)
    {
      cameraId := c;
    }

    /** setMeasurement: afterwards measurement() returns m; nothing else changes. */
    method SetMeasurement(m: Measurement)
      modifies this
      ensures Measurement() == m
      ensures CameraId() == old(CameraId()) && cameraGeometry == old(cameraGeometry)
      ensures Information() == old(Information()) && Covariance() == old(Covariance())
      ensures squareRootInformation == old(squareRootInformation)
    {
      measurement := m;
    }

    /** setCameraGeometry: replaces the shared camera reference only. */
    method SetCameraGeometry(g: Option<G>)
      modifies this
      ensures cameraGeometry == g
      ensures CameraId() == old(CameraId()) && Measurement() == old(Measurement())
      ensures Information() == old(Information()) && Covariance() == old(Covariance())
      ensures squareRootInformation == old(squareRootInformation)
    {
      cameraGeometry := g;
    }

    /** residualDim(): the number of residuals. */
    function ResidualDim(): (n: nat)
      ensures n == NumResiduals && n == 2
    {
      NumResiduals
    }

    /** parameterBlocks(): the number of declared parameter blocks. */
    function ParameterBlocks(): (n: nat)
      ensures n == |Blocks| && n == 3
    {
      |ParameterBlockSizes|
    }

    /** parameterBlockDim: the size of a parameter block, bounds-checked. */
    function ParameterBlockDim(parameterBlockId: nat): (r: Result<nat, OutOfRange>)
      ensures r.Ok? <==> parameterBlockId < ParameterBlocks()
      ensures r.Ok? ==> r.value == BlockSize(Blocks[parameterBlockId])
      ensures r.Err? ==> r.error == OutOfRange(parameterBlockId)
    {
      if parameterBlockId < |ParameterBlockSizes| then Ok(ParameterBlockSizes[parameterBlockId])
      else Err(OutOfRange(parameterBlockId))
    }

    /** The three block sizes are 7, 4 and 7: the pose, the homogeneous landmark, the extrinsics. */
    lemma ParameterBlockDims()
      ensures ParameterBlockDim(0) == Ok(7) && ParameterBlockDim(1) == Ok(4) && ParameterBlockDim(2) == Ok(7)
      ensures forall id: nat :: id >= 3 ==> ParameterBlockDim(id).Err?
    {
    }

    /** typeInfo(). */
    function TypeInfo(): (s: string)
      ensures s == "ReprojectionError"
    {
      "ReprojectionError"
    }
  }
}
