# okvis core, modelled in Dafny

This project models four pieces of OKVIS (Open Keyframe-based Visual-Inertial SLAM) and proves properties of each. The statements are made over the reals.

- **Equidistant (fisheye) distortion** (`Cameras`, `equidistant_distortion.dfy`).
  - The distortion object holds four coefficients k1..k4, once as a 4-vector and once as scalars.
  - The forward map scales a normalised point radially by `thetad / r`. Here `theta = atan(r)` and `thetad = theta (1 + k1 theta^2 + k2 theta^4 + k3 theta^6 + k4 theta^8)`. At or below `r = 1e-8` the point is returned unchanged.
  - The forward map also yields its point Jacobian and parameter Jacobian.
  - The inverse map is a Gauss-Newton iteration of at most five steps, with a latched success flag.
  - The C library's `sqrt` and `atan`, and Eigen's 2x2 inverse, are passed in as a record `Libm`. Only two facts about sqrt are assumed: `sqrt(0) = 0`, and `sqrt(x) > 0` for `x > 0`.
- **Timing registry** (`Timers`, `timer.dfy`).
  - The registry maps tags to dense handles, allocated in arrival order, and keeps one statistics accumulator per handle.
  - It offers range-checked queries and per-handle reset.
  - A `Timer` is a start/stop flag machine. Each stop adds one sample to its handle's accumulator.
  - The class invariant makes the tag map a bijection onto `[0, number of timers)`.
  - The module also models the arithmetic of `secondsToTimeString`.
- **Time-budget iteration callback** (`CeresCallback`, `ceres_iteration_callback.dfy`). The callback tells the solver to stop once the predicted time goes over the limit, but never before a minimum number of iterations.
- **Reprojection-error bookkeeping** (`ReprojectionErrorBase`, `ReprojectionErrors`, `reprojection_error_base.dfy`, `reprojection_error.dfy`).
  - The model covers the stored measurement, camera geometry, camera id and weighting matrices, and their setters and getters.
  - It also covers the fixed cost-function shape: 2 residuals, and parameter blocks of sizes 7, 4 and 7.

`wrappers.dfy` holds the `Option`, `Result` and `Outcome` types that model exceptions and error returns. `geometry.dfy` holds the 2-vectors and 2x2 matrices (Eigen's `Vector2d` and `Matrix2d`).

The source and its documentation disagree in two places. In both, the model follows the code (see Findings):
- `setParameters`: the header says the length of the argument must equal `numDistortionIntrinsics()`. The code compares the vector's column count instead, and that count is always 1.
- `distortWithExternalParameters`: the header (okvis_cv/include/okvis/cameras/EquidistantDistortion.hpp:132) documents `pointJacobian` as the Jacobian with respect to the image point, as for `distort`. The code (implementation lines 270-275) stores that Jacobian with its two columns exchanged.

## Model

| member | source | states |
|---|---|---|
| Cameras.EquidistantDistortion.constructor | okvis_cv/include/okvis/cameras/implementation/EquidistantDistortion.hpp:49-55 | k1..k4 are zero and the parameter vector is all zeros; the two representations agree |
| Cameras.EquidistantDistortion.WithCoefficients | okvis_cv/include/okvis/cameras/implementation/EquidistantDistortion.hpp:58-68 | parameters[i] is k(i+1) for i = 0..3, the scalar fields hold the arguments, and the two agree |
| Cameras.EquidistantDistortion.SetParameters | okvis_cv/include/okvis/cameras/implementation/EquidistantDistortion.hpp:70-80 | as written: the guard tests the column count (always 1) against 4, so the call returns false for every vector and changes no coefficient |
| Cameras.EquidistantDistortion.SetParametersChecked | okvis_cv/include/okvis/cameras/implementation/EquidistantDistortion.hpp:70-80 | as intended: returns true iff the vector has 4 entries; then both representations take the new values; otherwise nothing changes |
| Cameras.SetParametersRefusesEveryVector | okvis_cv/include/okvis/cameras/implementation/EquidistantDistortion.hpp:71 | the written guard rejects every vector, including every correctly sized one, which the intended guard accepts |
| Cameras.EquidistantDistortion.GetParameters | okvis_cv/include/okvis/cameras/EquidistantDistortion.hpp:77-80 | always succeeds and yields the stored 4-vector, which equals k1..k4 |
| Cameras.EquidistantDistortion.Type | okvis_cv/include/okvis/cameras/EquidistantDistortion.hpp:83-85 | the class name "EquidistantDistortion" |
| Cameras.EquidistantDistortion.NumIntrinsics | okvis_cv/include/okvis/cameras/EquidistantDistortion.hpp:88-92 | 4, which is the length of the parameter vector |
| Cameras.EquidistantDistortion.TestObject | okvis_cv/include/okvis/cameras/EquidistantDistortion.hpp:102-104 | a fresh, consistent object with coefficients (-0.21, 0.14, 0.0006, 0.0003) |
| Cameras.EquidistantDistortion.CreateTestObject | okvis_cv/include/okvis/cameras/EquidistantDistortion.hpp:96-99 | the same coefficients, as a fresh object |
| Cameras.EquidistantDistortion.Distort | okvis_cv/include/okvis/cameras/implementation/EquidistantDistortion.hpp:82-100 | always succeeds; for r > 1e-8 the output is (thetad / r) u, otherwise it is u itself |
| Cameras.EquidistantDistortion.DistortWithJacobians | okvis_cv/include/okvis/cameras/implementation/EquidistantDistortion.hpp:102-204 | same point as distort; in the limit case, an identity point Jacobian and (if requested) a 2x4 zero parameter Jacobian; otherwise the generated point Jacobian and parameter-Jacobian column j = theta^(2j+3) / r * u |
| Cameras.ParameterJacobianColumns | okvis_cv/include/okvis/cameras/implementation/EquidistantDistortion.hpp:167-190 | the generated parameter-Jacobian entries are exactly theta^(2j+3) / r * u for j = 0..3 |
| Cameras.ParameterJacobianIsExact | okvis_cv/include/okvis/cameras/implementation/EquidistantDistortion.hpp:91-98 | the distortion is affine in each coefficient: moving k(j+1) by delta moves the distorted point by exactly delta times parameter-Jacobian column j |
| Cameras.AnglePerturbation | okvis_cv/include/okvis/cameras/implementation/EquidistantDistortion.hpp:91-93 | thetad is affine in coefficient j, with slope theta^(2j+3) |
| Cameras.ScalingPerturbation | okvis_cv/include/okvis/cameras/implementation/EquidistantDistortion.hpp:91-96 | away from the origin the radial scaling is affine in coefficient j, with slope theta^(2j+3) / r |
| Cameras.LimitCaseIgnoresCoefficients | okvis_cv/include/okvis/cameras/implementation/EquidistantDistortion.hpp:96-98 | for r <= 1e-8 the distorted point is u, whatever the coefficients |
| Cameras.OriginIsFixed | okvis_cv/include/okvis/cameras/implementation/EquidistantDistortion.hpp:86-98 | the optical centre maps to itself |
| Cameras.DistortedRadiusIsDistortedAngle | okvis_cv/include/okvis/cameras/implementation/EquidistantDistortion.hpp:86-98 | equidistant projection: where sqrt is exact, the squared norm of the distorted point is thetad^2 |
| Cameras.EquidistantDistortion.DistortWithExternalParameters | okvis_cv/include/okvis/cameras/implementation/EquidistantDistortion.hpp:206-313 | as written: the point is distorted with the argument's coefficients; the point Jacobian is the generated one with its columns exchanged (identity in the limit case); the parameter Jacobian is as in distort |
| Cameras.EquidistantDistortion.DistortWithExternalParametersCorrected | okvis_cv/include/okvis/cameras/implementation/EquidistantDistortion.hpp:206-313 | as intended: the same outputs, with the point Jacobian laid out as in distort |
| Cameras.ExternalParametersAgreeWithDistort | okvis_cv/include/okvis/cameras/implementation/EquidistantDistortion.hpp:212-230 | given the object's own parameter vector, the external-parameter variant distorts to the same point and writes the same parameter Jacobian as distort |
| Cameras.CorrectedExternalAgreesWithDistort | okvis_cv/include/okvis/cameras/implementation/EquidistantDistortion.hpp:206-313 | the corrected variant, given the object's own parameters, returns exactly what distort with Jacobians returns |
| Cameras.ExternalPointJacobianDisagrees | okvis_cv/include/okvis/cameras/implementation/EquidistantDistortion.hpp:270-275 | at u = (1, 0) with zero coefficients, distort reports 1/2 at entry (0,0) while the written external variant reports 0 |
| Cameras.IterationsFrom | okvis_cv/include/okvis/cameras/implementation/EquidistantDistortion.hpp:319-345 | from iteration i the loop runs up to 5 iterations, and stops early after the first one whose chi2 is below 1e-15 |
| Cameras.Iterations | okvis_cv/include/okvis/cameras/implementation/EquidistantDistortion.hpp:319-345 | between 1 and 5 iterations; fewer than 5 only when the last of them had chi2 below 1e-15, and none before it did |
| Cameras.GaussNewton | okvis_cv/include/okvis/cameras/implementation/EquidistantDistortion.hpp:315-347 | the loop returns the final iterate (also on failure); success holds iff some performed iteration had chi2 below 1e-2; the returned Jacobian is the last one computed |
| Cameras.EquidistantDistortion.Undistort | okvis_cv/include/okvis/cameras/implementation/EquidistantDistortion.hpp:315-348 | Gauss-Newton on distort, started at the distorted point; final iterate and latched success as above |
| Cameras.EquidistantDistortion.UndistortWithJacobian | okvis_cv/include/okvis/cameras/implementation/EquidistantDistortion.hpp:350-386 | as undistort, plus the inverse of the point Jacobian of distort at the last linearisation point |
| Cameras.EarlyExitSucceeds | okvis_cv/include/okvis/cameras/implementation/EquidistantDistortion.hpp:335-342 | leaving the loop early always reports success |
| Cameras.ConvergedStartTakesOneStep | okvis_cv/include/okvis/cameras/implementation/EquidistantDistortion.hpp:339-342 | a start point that already fits to 1e-15 takes exactly one iteration and succeeds |
| Cameras.FailureMeansNoIterationFit | okvis_cv/include/okvis/cameras/implementation/EquidistantDistortion.hpp:323-347 | a failed undistortion ran all 5 iterations, none with chi2 below 1e-2 |
| Cameras.ZeroResidualZeroIncrement | okvis_cv/include/okvis/cameras/implementation/EquidistantDistortion.hpp:327-330 | a zero residual gives a zero Gauss-Newton increment, whatever the Jacobian |
| Cameras.StationaryStart | okvis_cv/include/okvis/cameras/implementation/EquidistantDistortion.hpp:323-345 | a start with chi2 0 and zero step takes one iteration, stays put and succeeds |
| Cameras.FixedPointIsStationary | okvis_cv/include/okvis/cameras/implementation/EquidistantDistortion.hpp:325-333 | at a fixed point of distort, chi2 is 0 and the undistortion step is zero |
| Cameras.UndistortKeepsFixedPoint | okvis_cv/include/okvis/cameras/implementation/EquidistantDistortion.hpp:315-347 | undistorting a point that distort leaves in place returns that point after one iteration, with success |
| Cameras.UndistortFixesOrigin | okvis_cv/include/okvis/cameras/implementation/EquidistantDistortion.hpp:315-347 | undistorting the optical centre returns it after one iteration, with success |
| Timers.EmptyStatistics | okvis_timing/src/Timer.cpp:231 | a fresh accumulator has count 0, sum 0, minimum DBL_MAX and maximum -DBL_MAX |
| Timers.AccumulateStatistics | okvis_timing/src/Timer.cpp:154-156 | one sample adds 1 to the count and the sample to the sum, and is folded into the minimum and maximum |
| Timers.MinIsLeast | okvis_timing/src/Timer.cpp:198-202 | the minimum is at most every sample, is at most DBL_MAX, and is either DBL_MAX or one of the samples |
| Timers.MaxIsGreatest | okvis_timing/src/Timer.cpp:208-212 | the maximum is at least every sample, is at least -DBL_MAX, and is either -DBL_MAX or one of the samples |
| Timers.SumAboveMinimum | okvis_timing/src/Timer.cpp:158-162 | for a non-empty accumulator, count * minimum <= sum |
| Timers.SumBelowMaximum | okvis_timing/src/Timer.cpp:158-162 | for a non-empty accumulator, sum <= count * maximum |
| Timers.SumOfDurations | okvis_timing/src/Timer.cpp:158-162 | a sum of non-negative durations is non-negative |
| Timers.MaxLengthIsLongest | okvis_timing/src/Timer.cpp:70-71 | the tracked tag width is the length of the longest registered tag, and 0 when there is none |
| Timers.Timing.ValidIsBijection | okvis_timing/src/Timer.cpp:61-77 | under the registry invariant the tag map is a bijection onto [0, number of timers) |
| Timers.Timing.constructor | okvis_timing/src/Timer.cpp:46-54 | an empty registry with maximum tag length 0, satisfying the invariant |
| Timers.Timing.GetHandle | okvis_timing/src/Timer.cpp:61-77 | a known tag returns its handle and changes nothing; a new tag gets handle n (the previous count), one fresh accumulator and the updated maximum tag length; the invariant is kept |
| Timers.Timing.GetTag | okvis_timing/src/Timer.cpp:79-95 | succeeds iff some tag maps to the handle, and then returns such a tag; under the invariant, succeeds iff the handle is in range, returning the tag registered for it; otherwise raises |
| Timers.HandleTagRoundTrip | okvis_timing/src/Timer.cpp:61-95 | getTag(getHandle(tag)) returns tag |
| Timers.Timing.TimerAt | okvis_timing/src/Timer.cpp:159-160 | the shared range check: an accumulator iff handle < number of timers, otherwise an out-of-range error |
| Timers.Timing.TotalSeconds | okvis_timing/src/Timer.cpp:158-162 | the sum of the handle's samples iff the handle is in range |
| Timers.Timing.NumSamples | okvis_timing/src/Timer.cpp:178-182 | the number of the handle's samples iff the handle is in range |
| Timers.Timing.MinSeconds | okvis_timing/src/Timer.cpp:198-202 | the minimum of the handle's samples iff the handle is in range |
| Timers.Timing.MaxSeconds | okvis_timing/src/Timer.cpp:208-212 | the maximum of the handle's samples iff the handle is in range |
| Timers.Timing.TotalSecondsOf | okvis_timing/src/Timer.cpp:164-166 | registers the tag as getHandle does, then returns its sum; 0 for a new tag |
| Timers.Timing.NumSamplesOf | okvis_timing/src/Timer.cpp:184-186 | registers the tag, then returns its sample count; 0 for a new tag |
| Timers.Timing.MinSecondsOf | okvis_timing/src/Timer.cpp:204-206 | registers the tag, then returns its minimum; DBL_MAX for a new tag |
| Timers.Timing.MaxSecondsOf | okvis_timing/src/Timer.cpp:214-216 | registers the tag, then returns its maximum; -DBL_MAX for a new tag |
| Timers.Timing.AddTime | okvis_timing/src/Timer.cpp:154-156 | feeds exactly one sample to the accumulator of the handle; no other accumulator and no tag changes |
| Timers.Timing.Reset | okvis_timing/src/Timer.cpp:228-232 | an in-range handle's accumulator becomes fresh and nothing else changes; an out-of-range handle raises and nothing changes |
| Timers.Timing.ResetTag | okvis_timing/src/Timer.cpp:234-236 | registers the tag, then resets its handle, which then has 0 samples |
| Timers.Timer.Init | okvis_timing/src/Timer.cpp:98-100 | the member initialisers: stopped, on the given handle |
| Timers.Timer.FromHandle | okvis_timing/src/Timer.cpp:98-105 | raises iff the handle is out of range; otherwise a timer on that handle, running unless constructed stopped |
| Timers.Timer.FromTag | okvis_timing/src/Timer.cpp:107-112 | registers the tag as getHandle does; the timer is on the tag's handle, running unless constructed stopped |
| Timers.Timer.Start | okvis_timing/src/Timer.cpp:119-127 | raises when already running; otherwise the timer becomes running |
| Timers.Timer.Stop | okvis_timing/src/Timer.cpp:129-143 | raises, recording nothing, when not running; otherwise adds exactly one sample dt to its handle; afterwards not running, with tags unchanged |
| Timers.Timer.IsTiming | okvis_timing/src/Timer.cpp:145-147 | the running flag |
| Timers.Timer.DiscardTiming | okvis_timing/src/Timer.cpp:149-151 | not running afterwards, with nothing recorded |
| Timers.Timer.Destroy | okvis_timing/src/Timer.cpp:114-117 | stops (adding one sample) only when running, so it never raises; afterwards not running |
| Timers.Trunc | okvis_timing/src/Timer.cpp:241-242 | the conversion to long rounds toward zero |
| Timers.ToInt32 | okvis_timing/src/Timer.cpp:241-243 | narrowing to int lands in the 32-bit range, is congruent mod 2^32, and is the identity on values that fit |
| Timers.Fmod | okvis_timing/src/Timer.cpp:240 | fmod(x, 60) has the sign of x and magnitude below 60 |
| Timers.SecondsToTimeFields | okvis_timing/src/Timer.cpp:238-243 | hours and minutes are 32-bit ints and the seconds field lies in (-60, 60) |
| Timers.TimeFieldsDecompose | okvis_timing/src/Timer.cpp:240-243 | below 2^31 minutes: hours = floor(s / 3600), minutes lies in 0..59, seconds lies in [0, 60), and 3600 h + 60 m + secs = s |
| CeresCallback.Decision | okvis_ceres/include/okvis/ceres/CeresIterationCallback.hpp:78-87 | terminate iff iteration >= minimum and cumulative + iteration time > limit; continue otherwise; never abort |
| CeresCallback.BelowMinimumContinues | okvis_ceres/include/okvis/ceres/CeresIterationCallback.hpp:81 | before the minimum number of iterations the verdict is continue, whatever the times |
| CeresCallback.WithinBudgetContinues | okvis_ceres/include/okvis/ceres/CeresIterationCallback.hpp:82-83 | a predicted total within the limit always continues |
| CeresCallback.RaisingTimeLimitKeepsContinue | okvis_ceres/include/okvis/ceres/CeresIterationCallback.hpp:81-86 | raising the time limit never turns continue into terminate |
| CeresCallback.RaisingMinimumKeepsContinue | okvis_ceres/include/okvis/ceres/CeresIterationCallback.hpp:81-86 | raising the minimum number of iterations never turns continue into terminate |
| CeresCallback.TerminationPersists | okvis_ceres/include/okvis/ceres/CeresIterationCallback.hpp:81-86 | a later summary with at least as much predicted time is also told to terminate |
| CeresCallback.CeresIterationCallback.constructor | okvis_ceres/include/okvis/ceres/CeresIterationCallback.hpp:67-70 | stores both arguments |
| CeresCallback.CeresIterationCallback.Call | okvis_ceres/include/okvis/ceres/CeresIterationCallback.hpp:78-87 | the verdict under the current settings, stated as the same if-and-only-if |
| CeresCallback.CeresIterationCallback.SetTimeLimit | okvis_ceres/include/okvis/ceres/CeresIterationCallback.hpp:96-98 | changes the time limit and nothing else |
| CeresCallback.CeresIterationCallback.SetMinimumIterations | okvis_ceres/include/okvis/ceres/CeresIterationCallback.hpp:105-107 | changes the minimum number of iterations and nothing else |
| ReprojectionErrorBase.BlockSize | okvis_ceres/include/okvis/ceres/ReprojectionErrorBase.hpp:51-52 | the homogeneous landmark block has size 4; the pose and extrinsics blocks have size 7 |
| ReprojectionErrorBase.ParameterBlockSizesFollowBlocks | okvis_ceres/include/okvis/ceres/ReprojectionErrorBase.hpp:50-52 | the declared sizes 7, 4, 7 are the sizes of pose, landmark and extrinsics, in that order |
| ReprojectionErrors.ReprojectionError.CameraId | okvis_ceres/include/okvis/ceres/ReprojectionErrorBase.hpp:58-60 | returns the stored camera id, reading only the object |
| ReprojectionErrors.ReprojectionError.SetCameraId | okvis_ceres/include/okvis/ceres/ReprojectionErrorBase.hpp:64-66 | afterwards cameraId() returns the argument; measurement, geometry and weighting matrices are unchanged |
| ReprojectionErrors.ReprojectionError.SetMeasurement | okvis_ceres/include/okvis/ceres/ReprojectionError.hpp:97-99 | afterwards measurement() returns the argument; camera id, geometry, information and covariance are unchanged |
| ReprojectionErrors.ReprojectionError.SetCameraGeometry | okvis_ceres/include/okvis/ceres/ReprojectionError.hpp:103-106 | replaces only the shared camera reference |
| ReprojectionErrors.ReprojectionError.Measurement | okvis_ceres/include/okvis/ceres/ReprojectionError.hpp:115-117 | the stored measurement, without side effects |
| ReprojectionErrors.ReprojectionError.Information | okvis_ceres/include/okvis/ceres/ReprojectionError.hpp:121-123 | the stored information matrix, without side effects |
| ReprojectionErrors.ReprojectionError.Covariance | okvis_ceres/include/okvis/ceres/ReprojectionError.hpp:127-129 | the stored covariance matrix, without side effects |
| ReprojectionErrors.ReprojectionError.ResidualDim | okvis_ceres/include/okvis/ceres/ReprojectionError.hpp:158-160 | always 2 |
| ReprojectionErrors.ReprojectionError.ParameterBlocks | okvis_ceres/include/okvis/ceres/ReprojectionError.hpp:163-165 | the number of declared blocks, 3 |
| ReprojectionErrors.ReprojectionError.ParameterBlockDim | okvis_ceres/include/okvis/ceres/ReprojectionError.hpp:170-172 | the size of the block for ids 0..2; any id >= 3 fails the bounds check |
| ReprojectionErrors.ReprojectionError.ParameterBlockDims | okvis_ceres/include/okvis/ceres/ReprojectionError.hpp:170-172 | parameterBlockDim(0), (1) and (2) are 7, 4 and 7; every id from 3 on fails |
| ReprojectionErrors.ReprojectionError.TypeInfo | okvis_ceres/include/okvis/ceres/ReprojectionError.hpp:175-177 | the constant "ReprojectionError" |

## Left out

- Floating point is not modelled: all double arithmetic is over the reals. So rounding, overflow to infinity and NaN are not captured. Constants such as `1e-8`, `1e-2`, `1e-15` and DBL_MAX are the exact decimal values.
- `sqrt`, `atan` and Eigen's 2x2 `inverse()` are parameters of the model (`Libm`). Beyond `sqrt(0) = 0` and the positivity of sqrt on positive arguments, they are unconstrained.
- Cameras.EquidistantDistortion.DistortWithJacobians: the generated point Jacobian (implementation lines 123-165) is reproduced entry by entry, but it is not proved to be the derivative of distort. Dafny has no calculus for atan and sqrt. The parameter Jacobian, by contrast, is proved exact (`ParameterJacobianIsExact`).
- Cameras.EquidistantDistortion.DistortWithExternalParameters: the point-Jacobian output pointer defaults to NULL but is written unconditionally (header line 138, implementation line 232). The model always returns the Jacobian, as if the caller passed one. It also requires a vector of at least four entries, which the code reads without a check.
- The uninitialised Jacobian `E` of undistort is given the identity before the loop. The loop always runs at least once and overwrites it, so this value is never observable.
- `Timing::instance()` is a process-wide singleton. Here it is an explicit `Timing` object that each `Timer` refers to.
- The mutex in `getHandle` and the unlocked lookup before it are not modelled: the registry is used sequentially.
- Clock access is not modelled: `Timer.Stop` and `Timer.Destroy` take the elapsed time `dt` as a parameter.
- `getMeanSeconds`, `getVarianceSeconds` and `getHz`, and their by-tag forms, are left out. They are floating-point statistics (mean, variance, rolling mean) of an accumulator library that is not part of this model. Only count, sum, minimum and maximum are defined.
- `Timing::print` and the `sprintf` formatting in `secondsToTimeString` are stream I/O. Only the hours/minutes/seconds arithmetic is modelled.
- Timers.SecondsToTimeFields: thanks to the precondition, the conversion of seconds/60 to long never goes out of range, and the same then holds for seconds/3600. The signed overflow possible in `minutes - hours * 60` is undefined in C++; the model wraps it like the narrowing.
- Handles (`size_t`) are unbounded naturals, so exhausting the handle space is not modelled.
- Timers.Timing.GetHandle: tags are `seq<char>` read as byte strings, one character per byte. The tracked maximum tag length (`MaxLength`) counts characters, while `std::string::size()` at Timer.cpp line 71 counts bytes. The two agree for ASCII tags and differ for multi-byte UTF-8 tags, which the model does not represent.
- Timers.Timing.AddTime: requires an in-range handle. The source indexes `m_timers` without a check (Timer.cpp lines 154-156), so an out-of-range handle is undefined behaviour there, and the model excludes it.
- `start` and `stop` build their exception message with `getTag`. That message, and a second exception getTag could raise while building it, are not modelled. Under the registry invariant the second exception cannot happen.
- ReprojectionError's `Evaluate`, `EvaluateWithMinimalJacobians`, `setInformation` and both constructors are only declared in the header. Their implementation file, and the pose local parameterization, are not part of this model. The class therefore has no constructor, and `squareRootInformation` is only carried along.
- The ReprojectionErrorBase / ReprojectionError2dBase / ReprojectionError hierarchy and the `ErrorInterface` base are flattened into one class without virtual dispatch.
- CeresCallback: `iteration` and `iterationMinimum` are unbounded integers, not 32-bit ones. The trivial destructor is not modelled.
- okvis_cv/test/TestFrame.cpp exercises external feature detection on a random image and is not modelled.

## Findings

| source | as written | input that shows it | evidently intended | confidence | as-written member | corrected member |
|---|---|---|---|---|---|---|
| okvis_cv/include/okvis/cameras/implementation/EquidistantDistortion.hpp:71 | `setParameters` refuses the vector unless `parameters.cols()` equals 4; a `VectorXd` always has one column | any 4-vector, e.g. (0.1, 0.2, 0.3, 0.4): returns false and changes nothing | accept a vector of 4 entries and copy it, as the header's comment ("length must correspond numDistortionIntrinsics()") says | not executed; high (follows from the Eigen type) | Cameras.EquidistantDistortion.SetParameters, Cameras.SetParametersRefusesEveryVector | Cameras.EquidistantDistortion.SetParametersChecked |
| okvis_cv/include/okvis/cameras/implementation/EquidistantDistortion.hpp:270-275 | `distortWithExternalParameters` stores the generated point-Jacobian entries with its two columns exchanged relative to `distort` (lines 160-165), though both compute the same map | u = (1, 0), zero coefficients: `distort` reports d(distorted x)/du0 = 1/2, the written variant reports 0 | the same layout as `distort` | not executed; high (the generated expressions are identical, only their destinations differ) | Cameras.EquidistantDistortion.DistortWithExternalParameters, Cameras.ExternalPointJacobianDisagrees | Cameras.EquidistantDistortion.DistortWithExternalParametersCorrected, Cameras.CorrectedExternalAgreesWithDistort |
