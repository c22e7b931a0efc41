/**
 * The iterative non-Cartesian SENSE stage (gadgets/cgsense/GPUCGGadget.cpp):
 * it configures itself from the stream header, keeps a sliding window of
 * acquisition profiles for its slice, and whenever the window is full stages
 * the window into a host array, hands it to the reconstruction collaborators
 * and emits one image.
 *
 * The GPU, the numerical collaborators (encoding operator, preconditioner,
 * regularisation operator, conjugate-gradient solver, coil-sensitivity
 * estimation, trajectory and density compensation) and the message queues
 * are outside the model: their successes and failures are inputs, the
 * solver's output is an opaque sequence of pixels, and the queues are
 * sequences the stage appends to.
 *
 * Every entry point takes the stage's mutex in the source and the model
 * runs them one at a time. Several `GADGET_FAIL` returns inside the
 * critical section of `process` (after a failed channel setup, a failed
 * trajectory, and every later failure) leave the mutex held in the source.
 */
module CgSense {
  import opened Types
  import opened DivMod
  import opened CgMessages
  import opened HostLayout
  import opened SlidingWindow
  import opened CgConfig

  /** The collaborator calls of a frame that can fail, in the order `process` makes them. */
  datatype Step =
    | Trajectory             // calculate_trajectory returns null
    | DensityCompensation    // calculate_density_compensation returns null
    | HostAllocation         // new float[...] throws for lack of memory
    | DeviceUpload           // the temporary host array or the device copy fails
    | Preprocess             // E_->preprocess throws
    | Accumulation           // rhs_buffer_->get_acc_coil_images returns null
    | RegularizationImage    // reg_image.create throws
    | CoilCombination        // E_->mult_csm_conj_sum throws
    | Solve                  // cg_.solve returns null
    | ImageAllocation        // the host image array cannot be created
    | ResultCopy             // cudaMemcpy of the result reports an error
    | Emit                   // next()->putq fails

  /** What the collaborators do during one `process` call. */
  datatype FrameEnv = FrameEnv(
    channelSetupOk: bool,      // configure_channels, when the channel count changed
    failing: set<Step>,        // the steps that fail if reached
    solution: seq<Complex>)    // what the solver returns

  /** The steps of a frame after the upload and before the image counter is advanced. */
  predicate SolvesAfterUpload(failing: set<Step>) {
    Preprocess !in failing && Accumulation !in failing && RegularizationImage !in failing &&
    CoilCombination !in failing && Solve !in failing && ImageAllocation !in failing && ResultCopy !in failing
  }

  /** The `count` pixels copied back from the solver's result; past its end the copy reads nothing defined, modelled as 0. */
  function Pixels(solution: seq<Complex>, count: nat): (r: seq<Complex>)
    ensures |r| == count
    ensures forall i | 0 <= i < count && i < |solution| :: r[i] == solution[i]
  {
    seq(count, i requires 0 <= i < count => if i < |solution| then solution[i] else Complex(0.0, 0.0))
  }

  /**
   * The image emitted for a frame completed by profile `p`
   * (GPUCGGadget.cpp:336-373): a `matrix` sized single-channel image with
   * the profile's slice, time stamp and geometry, index `index` and series
   * `series`, each stored into its 16-bit header field.
   */
  function FrameImage(p: Profile, matrix: (nat, nat), index: int, series: int, solution: seq<Complex>): (img: Image)
    ensures img.header.matrixSize == (Trunc16(matrix.0), Trunc16(matrix.1), 1) && img.header.channels == 1
    ensures img.header.slice == p.header.slice && img.header.acquisitionTimeStamp == p.header.acquisitionTimeStamp
    ensures img.header.position == p.header.position && img.header.quaternion == p.header.quaternion
    ensures img.header.patientTablePosition == p.header.patientTablePosition
    ensures img.header.imageIndex == Trunc16(index) && img.header.imageSeriesIndex == Trunc16(series)
    ensures |img.pixels| == matrix.0 * matrix.1
  {
    Image(
      ImageHeader(
        (Trunc16(matrix.0), Trunc16(matrix.1), 1), 1, p.header.slice, p.header.acquisitionTimeStamp,
        p.header.position, p.header.quaternion, p.header.patientTablePosition,
        Trunc16(index), Trunc16(series)),
      Pixels(solution, matrix.0 * matrix.1))
  }

  /** The floats of a host array, empty when there is none. */
  function Contents(a: array?<real>): seq<real>
    reads a
  {
    if a == null then [] else a[..]
  }

  /**
   * `copy_samples_for_profile` (GPUCGGadget.cpp:396-408): channel `c` of
   * profile `p` goes into window slot `slot` of the host array `a`, with the
   * strides of `lay`.
   */
  method CopySamplesForProfile(a: array<real>, p: Profile, lay: Layout, slot: nat, c: nat)
    requires HostOffset(lay, c, slot) + RegionLength(lay) <= a.Length
    modifies a
    ensures a[..] == WriteRegion(old(a[..]), HostOffset(lay, c, slot), ChannelData(p, lay, c))
  {
    var dst, src, len := HostOffset(lay, c, slot), SourceOffset(lay, c), RegionLength(lay);
    forall j | 0 <= j < len {
      a[dst + j] := SampleAt(p, src + j);
    }
  }

  /**
   * The channel loop of `upload_samples` (GPUCGGadget.cpp:461-463): every
   * channel of `m` is copied into window slot `slot` of the host array `a`
   * laid out by `lay`.
   */
  method StageChannels(a: array?<real>, m: Profile, lay: Layout, slot: nat)
    requires Fits(lay, |Contents(a)|) && slot < lay.profilesPerFrame
    modifies a
    ensures Contents(a) == StageProfile(old(Contents(a)), m, lay, slot, lay.channels)
  {
    ghost var h := Contents(a);
    var c := 0;
    while c < lay.channels
      invariant 0 <= c <= lay.channels
      invariant Contents(a) == StageProfile(h, m, lay, slot, c)
    {
      RegionFits(lay, c, slot);
      if a != null {
        CopySamplesForProfile(a, m, lay, slot, c);
      }
      c := c + 1;
    }
  }

  /**
   * The staging loop of `upload_samples` (GPUCGGadget.cpp:436-467): the
   * window is walked from its newest profile backwards and the k-th newest
   * is copied, channel by channel, into slot `profiles - 1 - k`. A profile
   * without a sample array stops the loop with a failure; the profiles
   * before it stay staged.
   */
  method StageWindowInto(a: array?<real>, window: seq<Profile>, lay: Layout) returns (ok: bool)
    requires Fits(lay, |Contents(a)|) && lay.profilesPerFrame <= |window|
    modifies a
    ensures Contents(a) == StageWindow(old(Contents(a)), window, lay, SampledRun(window, lay.profilesPerFrame))
    ensures ok <==> SampledRun(window, lay.profilesPerFrame) == lay.profilesPerFrame
  {
    ghost var h0 := Contents(a);
    var ppf := lay.profilesPerFrame;
    var k := 0;
    while k < ppf
      invariant 0 <= k <= ppf
      invariant |Contents(a)| == |h0|
      invariant SampledRun(window, k) == k
      invariant Contents(a) == StageWindow(h0, window, lay, k)
    {
      var m := window[|window| - 1 - k];
      if m.payload.OtherPayload? {
        // the downcast of the continuation to a sample array fails
        SampledRunStops(window, k, ppf);
        return false;
      }
      SampledRunGrows(window, k);
      StageChannels(a, m, lay, ppf - k - 1);
      StageWindowNext(h0, window, lay, k);
      k := k + 1;
    }
    return true;
  }

  /**
   * `upload_samples` replaces a host array of `held` complex samples per
   * channel when a frame needs `needed`, and the replacement fails when
   * `new float[n]` throws: for a negative `n` or when memory is short.
   */
  predicate ReallocationFails(channels: int, needed: int, held: int, allocOk: bool) {
    needed != held && (channels * needed * 2 < 0 || !allocOk)
  }

  /**
   * `upload_samples` returns a device array for a stage with this shape and
   * window: the allocation holds, every staged profile has samples, and the
   * upload works.
   */
  predicate UploadWorks(channels: int, samples: int, profiles: int, held: int, window: seq<Profile>,
                        allocOk: bool, uploadOk: bool) {
    !ReallocationFails(channels, samples * profiles, held, allocOk) &&
    (profiles >= 1 && profiles <= |window| ==> SampledRun(window, profiles) == profiles) &&
    uploadOk
  }

  /** A frame's samples reach the right-hand-side buffer: everything up to the preprocessing step succeeds. */
  predicate FrameAccumulates(env: FrameEnv, channels: int, samples: int, profiles: int, held: int, window: seq<Profile>) {
    Trajectory !in env.failing && DensityCompensation !in env.failing &&
    UploadWorks(channels, samples, profiles, held, window, HostAllocation !in env.failing, DeviceUpload !in env.failing) &&
    Preprocess !in env.failing
  }

  /**
   * The part of the stage's state a frame moves on: the window, the frames
   * accumulated, the image counter, the messages sent downstream, the
   * profiles released and the dequeue offset.
   */
  datatype Pipeline = Pipeline(window: seq<Profile>, accumulated: seq<seq<real>>, counter: int,
                               sent: seq<OutMessage>, dropped: seq<Profile>, offset: int)

  /**
   * How a frame over a window of `size` profiles ends: `Fail` unless it
   * `succeeds` through the hand-off, then `Ok` when the slide of `n`
   * profiles finds them in the window, and `Blocked` when the dequeue runs dry.
   */
  function FrameStatus(succeeds: bool, n: nat, size: nat): Status {
    if !succeeds then Fail else if n <= size then Ok else Blocked
  }

  class GpuCgGadget {
    var sliceNo: int                   // slice_no_: the slice this instance reconstructs
    var deviceNumber: int              // device_number_
    var profilesPerFrame: int          // profiles_per_frame_
    var sharedProfiles: int            // shared_profiles_
    var numberOfIterations: int        // number_of_iterations_
    var cgLimit: real                  // cg_limit_
    var oversampling: real             // oversampling_
    var kernelWidth: real              // kernel_width_
    var kappa: real                    // kappa_
    var passOnUndesiredData: bool      // pass_on_undesired_data_
    var imageSeries: int               // image_series_
    var matrixSize: (nat, nat)         // matrix_size_
    var matrixSizeOs: (int, int)       // matrix_size_os_
    var isConfigured: bool             // is_configured_
    var channels: nat                  // channels_
    var samplesPerProfile: nat         // samples_per_profile_
    var position: Position             // position_: the imaging plane of the last profile
    var quaternion: Quaternion         // quaternion_
    var buffer: seq<Profile>           // buffer_: the sliding window, oldest first
    var currentProfileOffset: int      // current_profile_offset_: profiles dequeued so far
    var imageCounter: int              // image_counter_
    var dcwComputed: bool              // dcw_computed_
    var allocatedSamples: int          // allocated_samples_: complex samples per channel in hostData
    var hostData: array?<real>         // data_host_ptr_: the host staging array
    var solverIterations: int          // what cg_ was given as its iteration limit
    var solverTolerance: real          // what cg_ was given as its tolerance
    var regularizationWeight: real     // what R_ was given as its weight
    var coilChannels: nat              // the coil count rhs_buffer_ was created for
    var accumulation: seq<seq<real>>   // the frames rhs_buffer_ accumulated since it was created or cleared
    var downstream: seq<OutMessage>    // what was put on the next stage's queue
    var released: seq<Profile>         // profiles released: dropped for another slice, or dequeued

    /**
     * The host array is consistent with `allocatedSamples`: once it is
     * non-zero the array holds `channels * allocatedSamples` complex samples.
     * Before configuration nothing is allocated, and the density
     * compensation flag is never left set.
     */
    predicate Valid()
      reads this
    {
      (allocatedSamples != 0 ==> hostData != null && hostData.Length == channels * allocatedSamples * 2) &&
      (!isConfigured ==> allocatedSamples == 0) &&
      !dcwComputed
    }

    /** The contents of the host array, empty while none is allocated. */
    function Host(): seq<real>
      reads this, hostData
    {
      Contents(hostData)
    }

    /** `samples_needed`: complex samples per channel of a frame. */
    function Needed(): int
      reads this
    {
      samplesPerProfile * profilesPerFrame
    }

    /** `upload_samples` replaces the host array when the frame size changed. */
    predicate Reallocates()
      reads this
    {
      Needed() != allocatedSamples
    }

    /** The replacement of the host array fails. */
    predicate AllocationFails(allocOk: bool)
      reads this
    {
      ReallocationFails(channels, Needed(), allocatedSamples, allocOk)
    }

    /** `upload_samples` returns a device array. */
    predicate UploadSucceeds(allocOk: bool, uploadOk: bool)
      reads this
    {
      UploadWorks(channels, samplesPerProfile, profilesPerFrame, allocatedSamples, buffer, allocOk, uploadOk)
    }

    /**
     * What the allocation step of `upload_samples` leaves behind when the
     * host array held `held` samples per channel before
     * (GPUCGGadget.cpp:413-432): a failed replacement leaves no array,
     * otherwise `allocated_samples_` is `samples_needed`; the same frame
     * size keeps the old array, and a new one has room for the whole frame.
     */
    twostate predicate AllocationOutcome(allocOk: bool, held: int)
      reads this
    {
      (ReallocationFails(channels, Needed(), held, allocOk) ==> hostData == null && allocatedSamples == 0) &&
      (!ReallocationFails(channels, Needed(), held, allocOk) ==> allocatedSamples == Needed()) &&
      (Needed() == held ==> hostData == old(hostData)) &&
      (Needed() != held && !ReallocationFails(channels, Needed(), held, allocOk) ==>
         fresh(hostData) && hostData.Length == channels * Needed() * 2)
    }

    /** GPUCGGadget.cpp:12-38. */
    constructor ()
      ensures Valid()
      ensures sliceNo == 0 && profilesPerFrame == 32 && sharedProfiles == 0 && channels == 0 && samplesPerProfile == 0
      ensures deviceNumber == 0 && numberOfIterations == 5 && cgLimit == 0.000001 && oversampling == 1.25
      ensures kernelWidth == 5.5 && kappa == 0.1 && currentProfileOffset == 0 && allocatedSamples == 0
      ensures hostData == null && !isConfigured && !dcwComputed && imageSeries == 0 && imageCounter == 0
      ensures matrixSize == (0, 0) && matrixSizeOs == (0, 0)
      ensures position == (0.0, 0.0, 0.0) && quaternion == (0.0, 0.0, 0.0, 0.0)
      ensures passOnUndesiredData
      ensures buffer == [] && accumulation == [] && downstream == [] && released == []
    {
      sliceNo, profilesPerFrame, sharedProfiles, channels, samplesPerProfile := 0, 32, 0, 0, 0;
      deviceNumber, numberOfIterations, cgLimit, oversampling := 0, 5, 0.000001, 1.25;
      kernelWidth, kappa, currentProfileOffset, allocatedSamples := 5.5, 0.1, 0, 0;
      hostData, isConfigured, dcwComputed, imageSeries, imageCounter := null, false, false, 0, 0;
      matrixSize, matrixSizeOs := (0, 0), (0, 0);
      position, quaternion := (0.0, 0.0, 0.0), (0.0, 0.0, 0.0, 0.0);
      passOnUndesiredData := true;
      solverIterations, solverTolerance, regularizationWeight, coilChannels := 0, 0.0, 0.0, 0;
      buffer, accumulation, downstream, released := [], [], [], [];
    }

    /**
     * `configure_channels` (GPUCGGadget.cpp:162-195): when the collaborators
     * accept the channel count, a fresh right-hand-side buffer for `channels`
     * coils replaces the old one; otherwise the call fails and nothing the
     * model tracks changes.
     */
    method ConfigureChannels(setupOk: bool) returns (status: Status)
      requires Valid()
      modifies this`coilChannels, this`accumulation
      ensures Valid()
      ensures status == (if setupOk then Ok else Fail)
      ensures setupOk ==> coilChannels == channels && accumulation == []
      ensures !setupOk ==> coilChannels == old(coilChannels) && accumulation == old(accumulation)
    {
      if !setupOk {
        return Fail;
      }
      coilChannels := channels;
      accumulation := [];
      return Ok;
    }

    /**
     * The allocation step of `upload_samples` (GPUCGGadget.cpp:413-434): when
     * the frame size `samples * profiles` differs from `allocatedSamples` the
     * old array is freed and one of `channels * samples * profiles * 2`
     * floats replaces it; when that allocation throws, the stage is left
     * without an array. Otherwise the array is kept as it is.
     */
    method AllocateHostData(allocOk: bool) returns (ok: bool)
      requires Valid() && isConfigured
      modifies this`hostData, this`allocatedSamples
      ensures Valid()
      ensures ok <==> !old(AllocationFails(allocOk))
      ensures !ok ==> hostData == null && allocatedSamples == 0
      ensures ok ==> allocatedSamples == Needed()
      ensures ok && old(Reallocates()) ==> fresh(hostData) && hostData.Length == channels * Needed() * 2
      ensures ok && old(Reallocates()) ==> Host() == Zeros(|Host()|)
      ensures !old(Reallocates()) ==> hostData == old(hostData) && allocatedSamples == old(allocatedSamples)
    {
      var needed := samplesPerProfile * profilesPerFrame;
      if needed != allocatedSamples {
        if hostData != null {
          hostData := null;
          allocatedSamples := 0;
        }
        var n := channels * needed * 2;
        if n < 0 || !allocOk {
          return false;
        }
        // the source leaves the new floats uninitialised; they are all overwritten before the upload reads them
        hostData := new real[n](_ => 0.0);
        allocatedSamples := needed;
      }
      return true;
    }

    /** The layout a frame is staged with once the host array matches it. */
    function FrameLayout(): Layout
      reads this
      requires profilesPerFrame >= 1
    {
      PackedLayout(channels, samplesPerProfile, profilesPerFrame)
    }

    /** The allocation step has succeeded: the host array matches a non-empty frame. */
    predicate Allocated()
      reads this
    {
      Valid() && profilesPerFrame >= 1 && allocatedSamples == Needed()
    }

    /** A matching host array takes a whole frame; with no samples to stage it may be absent and empty. */
    lemma AllocatedFits()
      requires Allocated()
      ensures Fits(FrameLayout(), |Host()|)
    {
      if allocatedSamples != 0 {
        assert |Host()| == channels * Needed() * 2;
      }
    }

    /**
     * `upload_samples` (GPUCGGadget.cpp:410-486): allocation, staging, and
     * the hand-over of the `[samples * profiles, channels]` complex array
     * over the host floats to the device. The device receives exactly
     * `DeviceFrame(buffer)`, the window's newest profiles in arrival order.
     */
    method UploadSamples(allocOk: bool, uploadOk: bool) returns (samples: Option<seq<real>>)
      requires Valid() && isConfigured && profilesPerFrame <= |buffer|
      modifies this`hostData, this`allocatedSamples, hostData
      ensures Valid()
      ensures old(AllocationFails(allocOk)) ==> hostData == null && allocatedSamples == 0
      ensures !old(AllocationFails(allocOk)) ==> allocatedSamples == Needed()
      ensures old(Reallocates()) && !old(AllocationFails(allocOk)) ==>
                fresh(hostData) && hostData.Length == channels * Needed() * 2
      ensures !old(Reallocates()) ==> hostData == old(hostData)
      ensures !old(Reallocates()) && profilesPerFrame >= 1 ==>
                Fits(FrameLayout(), |old(Host())|) &&
                Host() == StageWindow(old(Host()), buffer, FrameLayout(), SampledRun(buffer, profilesPerFrame))
      ensures old(Reallocates()) && !old(AllocationFails(allocOk)) && profilesPerFrame >= 1 ==>
                var z := Zeros(channels * Needed() * 2);
                Fits(FrameLayout(), |z|) &&
                Host() == StageWindow(z, buffer, FrameLayout(), SampledRun(buffer, profilesPerFrame))
      ensures samples.Some? <==> old(UploadSucceeds(allocOk, uploadOk))
      ensures samples.Some? ==> samples.value == DeviceFrame(buffer, channels, samplesPerProfile, profilesPerFrame)
    {
      var hostReady := AllocateHostData(allocOk);
      if !hostReady {
        return None;
      }
      if profilesPerFrame < 1 {
        // no profile is staged, and the device array has `samples * profiles * channels` = 0 elements
        if !uploadOk {
          return None;
        }
        return Some([]);
      }
      ghost var h0 := Host();
      AllocatedFits();
      var staged := StageWindowInto(hostData, buffer, FrameLayout());
      if !staged {
        return None;
      }
      if !uploadOk {
        return None;
      }
      StagedIsFrame(h0, buffer, FrameLayout());
      samples := Some(Host()[..HostLength(FrameLayout())]);
    }

    /** The collaborators accept every step of a frame up to the copy of the solver's result. */
    predicate Solves(env: FrameEnv)
      reads this
    {
      Trajectory !in env.failing && DensityCompensation !in env.failing &&
      UploadSucceeds(HostAllocation !in env.failing, DeviceUpload !in env.failing) &&
      SolvesAfterUpload(env.failing)
    }

    /** The frame's samples reach the right-hand-side buffer. */
    predicate Accumulates(env: FrameEnv)
      reads this
    {
      FrameAccumulates(env, channels, samplesPerProfile, profilesPerFrame, allocatedSamples, buffer)
    }

    /** `allocated_samples_` once `p` is taken in: a new sample or channel count marks the host array stale. */
    function AllocatedAfter(p: Profile): int
      reads this
    {
      if samplesPerProfile != p.header.numberOfSamples || channels != p.header.activeChannels then 0 else allocatedSamples
    }

    /** The accumulation once `p` is taken in: a new channel count starts a fresh buffer, a new imaging plane discards it. */
    function AcceptedAccumulation(p: Profile): seq<seq<real>>
      reads this
    {
      if channels != p.header.activeChannels || position != p.header.position || quaternion != p.header.quaternion
      then [] else accumulation
    }

    /** `Accumulates(env)` as it holds once `p` is taken in and has joined the window. */
    predicate AccumulatesAfter(p: Profile, env: FrameEnv)
      reads this
    {
      FrameAccumulates(env, p.header.activeChannels, p.header.numberOfSamples, profilesPerFrame, AllocatedAfter(p), buffer + [p])
    }

    /** `Solves(env)` as it holds once `p` is taken in and has joined the window. */
    predicate SolvesAfter(p: Profile, env: FrameEnv)
      reads this
    {
      AccumulatesAfter(p, env) && SolvesAfterUpload(env.failing)
    }

    /**
     * The first half of a frame's reconstruction (GPUCGGadget.cpp:249-279):
     * the trajectory and density compensation are computed, the window is
     * uploaded, the encoding operator is preprocessed, and the uploaded
     * samples are added to the right-hand-side buffer.
     */
    method AccumulateFrame(env: FrameEnv) returns (status: Status)
      requires Valid() && isConfigured && profilesPerFrame <= |buffer|
      modifies this`dcwComputed, this`hostData, this`allocatedSamples, hostData, this`accumulation
      ensures Valid()
      ensures status == (if old(Accumulates(env)) then Ok else Fail)
      ensures accumulation == old(accumulation) +
                (if status == Ok then [DeviceFrame(buffer, channels, samplesPerProfile, profilesPerFrame)] else [])
      ensures Trajectory in env.failing || DensityCompensation in env.failing ==>
                hostData == old(hostData) && allocatedSamples == old(allocatedSamples) && Host() == old(Host())
      ensures Trajectory !in env.failing && DensityCompensation !in env.failing ==>
                AllocationOutcome(HostAllocation !in env.failing, old(allocatedSamples))
      ensures status == Ok ==> allocatedSamples == Needed()
    {
      if Trajectory in env.failing {
        return Fail;
      }
      if !dcwComputed {
        if DensityCompensation in env.failing {
          return Fail;
        }
        // as in the source the flag is cleared again, so the weights are recomputed for every frame
        dcwComputed := false;
      }
      var samples := UploadSamples(HostAllocation !in env.failing, DeviceUpload !in env.failing);
      if samples.None? || Preprocess in env.failing {
        return Fail;
      }
      accumulation := accumulation + [samples.value];
      return Ok;
    }

    /**
     * The second half of a frame's reconstruction (GPUCGGadget.cpp:281-379):
     * coil sensitivities, regularisation image, solve, and the copy of the
     * result into an image completed by profile `p`. The counter is
     * advanced before the image is put, so a failed `putq` still consumes
     * an index.
     */
    method EmitImage(p: Profile, env: FrameEnv) returns (status: Status)
      requires Valid()
      modifies this`imageCounter, this`downstream
      ensures Valid()
      ensures status == (if SolvesAfterUpload(env.failing) && Emit !in env.failing then Ok else Fail)
      ensures imageCounter == old(imageCounter) + (if SolvesAfterUpload(env.failing) then 1 else 0)
      ensures downstream == old(downstream) +
                (if status == Ok then [EmittedImage(FrameImage(p, matrixSize, imageCounter, imageSeries, env.solution))] else [])
    {
      if !SolvesAfterUpload(env.failing) {
        return Fail;
      }
      imageCounter := imageCounter + 1;
      var image := FrameImage(p, matrixSize, imageCounter, imageSeries, env.solution);
      if Emit in env.failing {
        return Fail;
      }
      downstream := downstream + [EmittedImage(image)];
      return Ok;
    }

    /**
     * The reconstruction of one frame in `process` (GPUCGGadget.cpp:249-379),
     * run when the window is full; `p` is the profile that completed it.
     * The frame's staged samples are added to the accumulation, and when
     * every collaborator succeeds one image with index `image_counter_ + 1`
     * is put on the downstream queue.
     */
    method ReconstructFrame(p: Profile, env: FrameEnv) returns (status: Status)
      requires Valid() && isConfigured && profilesPerFrame <= |buffer|
      modifies this`dcwComputed, this`hostData, this`allocatedSamples, hostData
      modifies this`accumulation, this`imageCounter, this`downstream
      ensures Valid()
      ensures status == (if old(Solves(env)) && Emit !in env.failing then Ok else Fail)
      ensures imageCounter == old(imageCounter) + (if old(Solves(env)) then 1 else 0)
      ensures accumulation == old(accumulation) +
                (if old(Accumulates(env)) then [DeviceFrame(buffer, channels, samplesPerProfile, profilesPerFrame)] else [])
      ensures downstream == old(downstream) +
                (if status == Ok then [EmittedImage(FrameImage(p, matrixSize, imageCounter, imageSeries, env.solution))] else [])
      ensures Trajectory in env.failing || DensityCompensation in env.failing ==>
                hostData == old(hostData) && allocatedSamples == old(allocatedSamples) && Host() == old(Host())
      ensures Trajectory !in env.failing && DensityCompensation !in env.failing ==>
                AllocationOutcome(HostAllocation !in env.failing, old(allocatedSamples))
    {
      status := AccumulateFrame(env);
      if status == Ok {
        status := EmitImage(p, env);
      }
    }

    /**
     * The slide at the end of a frame (GPUCGGadget.cpp:381-387): the loop
     * dequeues `profiles - shared` head profiles, releasing each and
     * advancing `current_profile_offset_`. A dequeue from an empty window
     * waits forever; the model stops there with `Blocked`.
     */
    method SlideWindow() returns (status: Status)
      requires Valid()
      modifies this`buffer, this`released, this`currentProfileOffset
      ensures Valid()
      ensures var n := SlideCount(profilesPerFrame, sharedProfiles);
        status == (if n <= |old(buffer)| then Ok else Blocked) &&
        (status == Ok ==> Slide(old(buffer), n) == Some(buffer) &&
                          released == old(released) + old(buffer)[..n] &&
                          currentProfileOffset == old(currentProfileOffset) + n) &&
        (status == Blocked ==> buffer == [] && released == old(released) + old(buffer) &&
                               currentProfileOffset == old(currentProfileOffset) + |old(buffer)|)
    {
      var i := 0;
      while i < profilesPerFrame - sharedProfiles
        invariant 0 <= i <= |old(buffer)| && i <= SlideCount(profilesPerFrame, sharedProfiles)
        invariant buffer == old(buffer)[i..]
        invariant released == old(released) + old(buffer)[..i]
        invariant currentProfileOffset == old(currentProfileOffset) + i
      {
        if buffer == [] {
          assert old(buffer)[..i] == old(buffer);
          return Blocked;
        }
        assert old(buffer)[..i + 1] == old(buffer)[..i] + [buffer[0]];
        released := released + [buffer[0]];
        buffer := buffer[1..];
        currentProfileOffset := currentProfileOffset + 1;
        i := i + 1;
      }
      return Ok;
    }

    /**
     * The reaction to a profile arriving for this slice whose sample or
     * channel count differs from the cached one (GPUCGGadget.cpp:224-236):
     * the cache takes the profile's value and the host allocation is marked
     * stale; a channel change also redoes the channel setup, and its failure
     * fails the call.
     */
    method AdjustToProfile(p: Profile, channelSetupOk: bool) returns (status: Status)
      requires Valid()
      modifies this`samplesPerProfile, this`channels, this`allocatedSamples, this`coilChannels, this`accumulation
      ensures Valid()
      ensures samplesPerProfile == p.header.numberOfSamples && channels == p.header.activeChannels
      ensures allocatedSamples ==
                if old(samplesPerProfile) != p.header.numberOfSamples || old(channels) != p.header.activeChannels
                then 0 else old(allocatedSamples)
      ensures old(channels) == p.header.activeChannels ==>
                status == Ok && coilChannels == old(coilChannels) && accumulation == old(accumulation)
      ensures old(channels) != p.header.activeChannels ==>
                status == (if channelSetupOk then Ok else Fail) &&
                (channelSetupOk ==> coilChannels == channels && accumulation == []) &&
                (!channelSetupOk ==> coilChannels == old(coilChannels) && accumulation == old(accumulation))
    {
      if p.header.numberOfSamples != samplesPerProfile {
        samplesPerProfile := p.header.numberOfSamples;
        allocatedSamples := 0;
      }
      status := Ok;
      if p.header.activeChannels != channels {
        channels := p.header.activeChannels;
        allocatedSamples := 0;
        status := ConfigureChannels(channelSetupOk);
      }
    }

    /**
     * A change of imaging plane (GPUCGGadget.cpp:239-243): when the
     * profile's quaternion or position differs from the cached one, the
     * accumulated frames are discarded and the cache takes the profile's
     * geometry; the same geometry changes nothing.
     */
    method TrackGeometry(p: Profile)
      requires Valid()
      modifies this`position, this`quaternion, this`accumulation
      ensures Valid()
      ensures position == p.header.position && quaternion == p.header.quaternion
      ensures accumulation ==
                if old(quaternion) == p.header.quaternion && old(position) == p.header.position
                then old(accumulation) else []
    {
      if quaternion != p.header.quaternion || position != p.header.position {
        accumulation := [];
        position := p.header.position;
        quaternion := p.header.quaternion;
      }
    }

    /**
     * A profile of this stage's slice before the window is inspected
     * (GPUCGGadget.cpp:220-245): the cached shape and geometry follow the
     * profile, and unless the channel setup fails the profile is appended to
     * the window.
     */
    method AcceptProfile(p: Profile, channelSetupOk: bool) returns (status: Status)
      requires Valid()
      modifies this`samplesPerProfile, this`channels, this`allocatedSamples, this`coilChannels, this`accumulation
      modifies this`position, this`quaternion, this`buffer
      ensures Valid()
      ensures status == (if old(channels) == p.header.activeChannels || channelSetupOk then Ok else Fail)
      ensures samplesPerProfile == p.header.numberOfSamples && channels == p.header.activeChannels
      ensures allocatedSamples == old(AllocatedAfter(p))
      ensures coilChannels == if old(channels) != p.header.activeChannels && channelSetupOk then channels else old(coilChannels)
      ensures status == Ok ==> position == p.header.position && quaternion == p.header.quaternion
      ensures status == Fail ==> position == old(position) && quaternion == old(quaternion)
      ensures accumulation == if status == Ok then old(AcceptedAccumulation(p)) else old(accumulation)
      ensures buffer == old(buffer) + (if status == Ok then [p] else [])
      ensures PipelineNow() == if status == Ok then old(PipelineAfter(p)) else old(PipelineNow())
    {
      status := AdjustToProfile(p, channelSetupOk);
      if status == Ok {
        TrackGeometry(p);
        buffer := buffer + [p];
      }
    }

    function PipelineNow(): Pipeline
      reads this
    {
      Pipeline(buffer, accumulation, imageCounter, downstream, released, currentProfileOffset)
    }

    /** `PipelineNow()` once `p` is taken in and has joined the window. */
    function PipelineAfter(p: Profile): Pipeline
      reads this
    {
      Pipeline(buffer + [p], AcceptedAccumulation(p), imageCounter, downstream, released, currentProfileOffset)
    }

    /**
     * Where a frame over `start.window` leaves the pipeline, when `solves`
     * and `accumulates` say whether the collaborators got through the result
     * copy and through preprocessing. The counter advances exactly when they
     * solve; the staged window is accumulated exactly when they get past
     * preprocessing; when the hand-off succeeds as well the numbered image
     * goes downstream and the window slides by `SlideCount`, releasing the
     * profiles it drops and counting them in the offset, or is emptied when
     * the dequeue blocks. A failed frame leaves window, offset and released
     * profiles alone.
     */
    function FrameResult(p: Profile, env: FrameEnv, start: Pipeline, solves: bool, accumulates: bool): Pipeline
      requires accumulates ==> profilesPerFrame <= |start.window|
      reads this
    {
      var full := start.window;
      var n := SlideCount(profilesPerFrame, sharedProfiles);
      var status := FrameStatus(solves && Emit !in env.failing, n, |full|);
      var counter := start.counter + (if solves then 1 else 0);
      Pipeline(
        if status == Fail then full else if status == Ok then full[n..] else [],
        start.accumulated + (if accumulates then [DeviceFrame(full, channels, samplesPerProfile, profilesPerFrame)] else []),
        counter,
        start.sent + (if status != Fail then [EmittedImage(FrameImage(p, matrixSize, counter, imageSeries, env.solution))] else []),
        start.dropped + (if status == Fail then [] else if status == Ok then full[..n] else full),
        start.offset + (if status == Fail then 0 else if status == Ok then n else |full|))
    }

    /**
     * A full window (GPUCGGadget.cpp:247-388): the frame is reconstructed
     * and, when that succeeds, the window slides; a failure leaves the
     * window as it is.
     */
    method CompleteFrame(p: Profile, env: FrameEnv) returns (status: Status)
      requires Valid() && isConfigured && Fires(buffer, profilesPerFrame)
      modifies this`dcwComputed, this`hostData, this`allocatedSamples, hostData
      modifies this`accumulation, this`imageCounter, this`downstream
      modifies this`buffer, this`released, this`currentProfileOffset
      ensures Valid()
      ensures status == FrameStatus(old(Solves(env)) && Emit !in env.failing, SlideCount(profilesPerFrame, sharedProfiles), |old(buffer)|)
      ensures PipelineNow() == FrameResult(p, env, old(PipelineNow()), old(Solves(env)), old(Accumulates(env)))
      ensures Trajectory in env.failing || DensityCompensation in env.failing ==>
                hostData == old(hostData) && allocatedSamples == old(allocatedSamples) && Host() == old(Host())
      ensures Trajectory !in env.failing && DensityCompensation !in env.failing ==>
                AllocationOutcome(HostAllocation !in env.failing, old(allocatedSamples))
    {
      status := ReconstructFrame(p, env);
      if status == Ok {
        status := SlideWindow();
      }
    }

    /**
     * The window once a profile has joined it (GPUCGGadget.cpp:247-388): a
     * frame is completed when the window holds `profiles_per_frame_`
     * profiles, and nothing happens otherwise.
     */
    method FrameWhenFull(p: Profile, env: FrameEnv) returns (status: Status)
      requires Valid() && isConfigured
      modifies this`dcwComputed, this`hostData, this`allocatedSamples, hostData
      modifies this`accumulation, this`imageCounter, this`downstream
      modifies this`buffer, this`released, this`currentProfileOffset
      ensures Valid()
      // the settings, the shape and the geometry are left as they are
      ensures profilesPerFrame == old(profilesPerFrame) && sharedProfiles == old(sharedProfiles)
      ensures sliceNo == old(sliceNo) && isConfigured == old(isConfigured) && matrixSize == old(matrixSize)
      ensures channels == old(channels) && samplesPerProfile == old(samplesPerProfile) && coilChannels == old(coilChannels)
      ensures position == old(position) && quaternion == old(quaternion)
      ensures !Fires(old(buffer), profilesPerFrame) ==>
                status == Ok && PipelineNow() == old(PipelineNow()) &&
                allocatedSamples == old(allocatedSamples) && hostData == old(hostData) && Host() == old(Host())
      ensures Fires(old(buffer), profilesPerFrame) ==>
                status == FrameStatus(old(Solves(env)) && Emit !in env.failing, SlideCount(profilesPerFrame, sharedProfiles), |old(buffer)|) &&
                PipelineNow() == FrameResult(p, env, old(PipelineNow()), old(Solves(env)), old(Accumulates(env)))
      ensures Fires(old(buffer), profilesPerFrame) && (Trajectory in env.failing || DensityCompensation in env.failing) ==>
                hostData == old(hostData) && allocatedSamples == old(allocatedSamples) && Host() == old(Host())
      ensures Fires(old(buffer), profilesPerFrame) && Trajectory !in env.failing && DensityCompensation !in env.failing ==>
                AllocationOutcome(HostAllocation !in env.failing, old(allocatedSamples))
      // the window a successful call leaves, and when the call blocks
      ensures status == Ok ==>
                buffer == if Fires(old(buffer), profilesPerFrame) then old(buffer)[SlideCount(profilesPerFrame, sharedProfiles)..] else old(buffer)
      ensures status == Blocked ==>
                Fires(old(buffer), profilesPerFrame) && SlideCount(profilesPerFrame, sharedProfiles) > |old(buffer)|
    {
      if Fires(buffer, profilesPerFrame) {
        status := CompleteFrame(p, env);
      } else {
        status := Ok;
      }
    }

    /** A profile `p` is taken by this stage: it is configured and `p` belongs to its slice. */
    predicate Accepts(p: Profile)
      reads this
    {
      isConfigured && p.header.slice == sliceNo
    }

    /**
     * `process` (GPUCGGadget.cpp:197-393) for one profile `p`. Before
     * configuration it fails; a profile of another slice is forwarded or
     * released and nothing else changes; a profile of this slice updates the
     * cached shape and geometry, is appended to the window, and once the
     * window holds `profiles_per_frame_` profiles a frame is reconstructed
     * and the window slides. The window then is `WindowStep` of the old one.
     */
    method Process(p: Profile, env: FrameEnv) returns (status: Status)
      requires Valid()
      modifies this`samplesPerProfile, this`channels, this`allocatedSamples, this`coilChannels, this`accumulation
      modifies this`position, this`quaternion, this`buffer, this`dcwComputed, this`hostData, hostData
      modifies this`imageCounter, this`downstream, this`released, this`currentProfileOffset
      ensures Valid()
      ensures profilesPerFrame == old(profilesPerFrame) && sharedProfiles == old(sharedProfiles)
      ensures sliceNo == old(sliceNo) && isConfigured == old(isConfigured) && matrixSize == old(matrixSize)
      ensures !old(isConfigured) ==> status == Fail && unchanged(this) && Host() == old(Host())
      // a profile of another slice
      ensures old(isConfigured) && p.header.slice != old(sliceNo) ==>
                status == Ok && buffer == old(buffer) && imageCounter == old(imageCounter) &&
                samplesPerProfile == old(samplesPerProfile) && channels == old(channels) &&
                allocatedSamples == old(allocatedSamples) && hostData == old(hostData) && Host() == old(Host()) &&
                coilChannels == old(coilChannels) && accumulation == old(accumulation) &&
                position == old(position) && quaternion == old(quaternion) &&
                currentProfileOffset == old(currentProfileOffset) &&
                downstream == old(downstream) + (if old(passOnUndesiredData) then [ForwardedProfile(p)] else []) &&
                released == old(released) + (if old(passOnUndesiredData) then [] else [p])
      // a profile of this stage's slice: the cached shape follows it
      ensures old(Accepts(p)) ==>
                samplesPerProfile == p.header.numberOfSamples && channels == p.header.activeChannels &&
                coilChannels == if old(channels) != p.header.activeChannels && env.channelSetupOk then channels else old(coilChannels)
      // a failed channel setup: the call fails before the window is touched
      ensures old(Accepts(p) && channels != p.header.activeChannels) && !env.channelSetupOk ==>
                status == Fail && buffer == old(buffer) && allocatedSamples == 0 && hostData == old(hostData) &&
                accumulation == old(accumulation) && position == old(position) && quaternion == old(quaternion) &&
                imageCounter == old(imageCounter) && downstream == old(downstream) &&
                currentProfileOffset == old(currentProfileOffset) && released == old(released)
      ensures old(Accepts(p) && (channels == p.header.activeChannels || env.channelSetupOk)) ==>
                position == p.header.position && quaternion == p.header.quaternion
      // the profile joins the window and no frame fires: nothing else changes
      ensures old(Accepts(p) && (channels == p.header.activeChannels || env.channelSetupOk)) &&
              !Fires(old(buffer) + [p], profilesPerFrame) ==>
                status == Ok && PipelineNow() == old(PipelineAfter(p)) &&
                allocatedSamples == old(AllocatedAfter(p)) && hostData == old(hostData) && Host() == old(Host())
      // the profile fills the window: one frame is reconstructed, and the window slides when it succeeds
      ensures old(Accepts(p) && (channels == p.header.activeChannels || env.channelSetupOk)) &&
              Fires(old(buffer) + [p], profilesPerFrame) ==>
                status == FrameStatus(old(SolvesAfter(p, env)) && Emit !in env.failing, SlideCount(profilesPerFrame, sharedProfiles), |old(buffer)| + 1) &&
                PipelineNow() == FrameResult(p, env, old(PipelineAfter(p)), old(SolvesAfter(p, env)), old(AccumulatesAfter(p, env)))
      ensures old(Accepts(p) && (channels == p.header.activeChannels || env.channelSetupOk)) &&
              Fires(old(buffer) + [p], profilesPerFrame) &&
              (Trajectory in env.failing || DensityCompensation in env.failing) ==>
                hostData == old(hostData) && allocatedSamples == old(AllocatedAfter(p)) && Host() == old(Host())
      ensures old(Accepts(p) && (channels == p.header.activeChannels || env.channelSetupOk)) &&
              Fires(old(buffer) + [p], profilesPerFrame) &&
              Trajectory !in env.failing && DensityCompensation !in env.failing ==>
                AllocationOutcome(HostAllocation !in env.failing, old(AllocatedAfter(p)))
      ensures old(Accepts(p)) && status == Ok ==>
                WindowStep(old(buffer), p, profilesPerFrame, sharedProfiles) == Some(buffer)
      ensures status == Blocked ==>
                old(Accepts(p)) && WindowStep(old(buffer), p, profilesPerFrame, sharedProfiles).None?
    {
      if !isConfigured {
        return Fail;
      }
      if p.header.slice != sliceNo {
        if passOnUndesiredData {
          downstream := downstream + [ForwardedProfile(p)];
        } else {
          released := released + [p];
        }
        return Ok;
      }
      status := ProcessAccepted(p, env);
    }

    /**
     * The part of `process` (GPUCGGadget.cpp:216-393) that handles a profile
     * of this stage's slice, under the stage's mutex: the profile is taken
     * into the window and, once the window is full, a frame is reconstructed
     * and the window slides.
     */
    method ProcessAccepted(p: Profile, env: FrameEnv) returns (status: Status)
      requires Valid() && Accepts(p)
      modifies this`samplesPerProfile, this`channels, this`allocatedSamples, this`coilChannels, this`accumulation
      modifies this`position, this`quaternion, this`buffer, this`dcwComputed, this`hostData, hostData
      modifies this`imageCounter, this`downstream, this`released, this`currentProfileOffset
      ensures Valid()
      ensures profilesPerFrame == old(profilesPerFrame) && sharedProfiles == old(sharedProfiles)
      ensures sliceNo == old(sliceNo) && isConfigured == old(isConfigured) && matrixSize == old(matrixSize)
      ensures samplesPerProfile == p.header.numberOfSamples && channels == p.header.activeChannels
      ensures coilChannels == if old(channels) != p.header.activeChannels && env.channelSetupOk then channels else old(coilChannels)
      // a failed channel setup: the call fails before the window is touched
      ensures old(channels) != p.header.activeChannels && !env.channelSetupOk ==>
                status == Fail && PipelineNow() == old(PipelineNow()) && allocatedSamples == 0 && hostData == old(hostData) &&
                position == old(position) && quaternion == old(quaternion)
      ensures old(channels) == p.header.activeChannels || env.channelSetupOk ==>
                position == p.header.position && quaternion == p.header.quaternion
      // the profile joins the window and no frame fires: nothing else changes
      ensures (old(channels) == p.header.activeChannels || env.channelSetupOk) && !Fires(old(buffer) + [p], profilesPerFrame) ==>
                status == Ok && PipelineNow() == old(PipelineAfter(p)) &&
                allocatedSamples == old(AllocatedAfter(p)) && hostData == old(hostData) && Host() == old(Host())
      // the profile fills the window: one frame is reconstructed, and the window slides when it succeeds
      ensures (old(channels) == p.header.activeChannels || env.channelSetupOk) && Fires(old(buffer) + [p], profilesPerFrame) ==>
                status == FrameStatus(old(SolvesAfter(p, env)) && Emit !in env.failing, SlideCount(profilesPerFrame, sharedProfiles), |old(buffer)| + 1) &&
                PipelineNow() == FrameResult(p, env, old(PipelineAfter(p)), old(SolvesAfter(p, env)), old(AccumulatesAfter(p, env)))
      ensures (old(channels) == p.header.activeChannels || env.channelSetupOk) && Fires(old(buffer) + [p], profilesPerFrame) &&
              (Trajectory in env.failing || DensityCompensation in env.failing) ==>
                hostData == old(hostData) && allocatedSamples == old(AllocatedAfter(p)) && Host() == old(Host())
      ensures (old(channels) == p.header.activeChannels || env.channelSetupOk) && Fires(old(buffer) + [p], profilesPerFrame) &&
              Trajectory !in env.failing && DensityCompensation !in env.failing ==>
                AllocationOutcome(HostAllocation !in env.failing, old(AllocatedAfter(p)))
      ensures status == Ok ==>
                WindowStep(old(buffer), p, profilesPerFrame, sharedProfiles) == Some(buffer)
      ensures status == Blocked ==>
                WindowStep(old(buffer), p, profilesPerFrame, sharedProfiles).None?
    {
      status := AcceptProfile(p, env.channelSetupOk);
      if status == Ok {
        assert Solves(env) == old(SolvesAfter(p, env)) && Accumulates(env) == old(AccumulatesAfter(p, env));
        status := FrameWhenFull(p, env);
      }
    }

    /**
     * `parameter_changed` (GPUCGGadget.cpp:488-499): a change of
     * `profiles_per_frame` re-reads it from the parameter store, where it now
     * holds `stored`; any other name changes nothing. `shared_profiles_` is
     * not clamped again.
     */
    method ParameterChanged(name: string, newValue: string, oldValue: string, stored: int) returns (status: Status)
      requires Valid()
      modifies this`profilesPerFrame
      ensures Valid()
      ensures status == Ok
      ensures profilesPerFrame == if name == "profiles_per_frame" then stored else old(profilesPerFrame)
    {
      if name == "profiles_per_frame" {
        profilesPerFrame := stored;
      }
      return Ok;
    }

    /** The frame and solver parameters hold what `params` gave, `shared_profiles_` capped at `profiles_per_frame_ - 1`. */
    predicate HasParameters(params: Parameters)
      reads this
    {
      profilesPerFrame == params.profilesPerFrame &&
      sharedProfiles == ClampShared(params.sharedProfiles, params.profilesPerFrame) &&
      numberOfIterations == params.numberOfIterations && cgLimit == params.cgLimit &&
      oversampling == params.oversampling && kernelWidth == params.kernelWidth && kappa == params.kappa &&
      passOnUndesiredData == params.passOnUndesiredData && imageSeries == params.imageSeries
    }

    /**
     * The shape the one-time setup takes from encoding space `e` of the
     * header and a device with warp size `warp`, and the limits it gives
     * the solver.
     */
    predicate SetUpFrom(e: EncodingSpace, header: StreamHeader, warp: Positive)
      reads this
    {
      samplesPerProfile == e.matrixX && channels == ReceiverChannels(header) &&
      matrixSize == (e.matrixX, e.matrixY) &&
      matrixSizeOs == (OversampledSize(e.matrixX, oversampling, warp), OversampledSize(e.matrixY, oversampling, warp)) &&
      solverIterations == numberOfIterations && solverTolerance == cgLimit && regularizationWeight == kappa
    }

    /**
     * The parameters `process_config` reads once a device is selected
     * (GPUCGGadget.cpp:71-84), with `shared_profiles_` capped at
     * `profiles_per_frame_ - 1`.
     */
    method ReadParameters(params: Parameters)
      requires Valid()
      modifies this`profilesPerFrame, this`sharedProfiles, this`numberOfIterations, this`cgLimit
      modifies this`oversampling, this`kernelWidth, this`kappa, this`passOnUndesiredData, this`imageSeries
      ensures Valid()
      ensures HasParameters(params)
    {
      profilesPerFrame, sharedProfiles := params.profilesPerFrame, params.sharedProfiles;
      numberOfIterations, cgLimit, oversampling := params.numberOfIterations, params.cgLimit, params.oversampling;
      kernelWidth, kappa := params.kernelWidth, params.kappa;
      passOnUndesiredData, imageSeries := params.passOnUndesiredData, params.imageSeries;
      if sharedProfiles > profilesPerFrame - 1 {
        sharedProfiles := profilesPerFrame - 1;
      }
    }

    /**
     * The shape taken during the one-time setup (GPUCGGadget.cpp:108-149):
     * the sample count, channel count and matrix come from the header, the
     * oversampled matrix is rounded up to whole warps, and the solver gets
     * its limits.
     */
    method TakeShape(e: EncodingSpace, header: StreamHeader, warp: Positive)
      requires Valid() && !isConfigured
      modifies this`samplesPerProfile, this`channels, this`matrixSize, this`matrixSizeOs
      modifies this`solverIterations, this`solverTolerance, this`regularizationWeight
      ensures Valid()
      ensures SetUpFrom(e, header, warp)
    {
      samplesPerProfile, channels, matrixSize := e.matrixX, ReceiverChannels(header), (e.matrixX, e.matrixY);
      matrixSizeOs := (OversampledSize(e.matrixX, oversampling, warp), OversampledSize(e.matrixY, oversampling, warp));
      solverIterations, solverTolerance, regularizationWeight := numberOfIterations, cgLimit, kappa;
    }

    /**
     * The one-time setup of `process_config` (GPUCGGadget.cpp:100-156): the
     * warp size is queried, the shape is taken from the header, and the
     * channels are set up. Only a successful channel setup marks the stage
     * configured.
     */
    method SetUp(e: EncodingSpace, header: StreamHeader, env: DeviceEnv) returns (status: Status)
      requires Valid() && !isConfigured
      modifies this`samplesPerProfile, this`channels, this`matrixSize, this`matrixSizeOs
      modifies this`solverIterations, this`solverTolerance, this`regularizationWeight
      modifies this`coilChannels, this`accumulation, this`isConfigured
      ensures Valid()
      ensures status == (if env.warpSize.Some? && env.channelSetupOk then Ok else Fail)
      ensures isConfigured <==> status == Ok
      ensures env.warpSize.Some? ==> SetUpFrom(e, header, env.warpSize.value)
      ensures status == Ok ==> coilChannels == channels && accumulation == []
    {
      if env.warpSize.None? {
        return Fail;
      }
      TakeShape(e, header, env.warpSize.value);
      status := ConfigureChannels(env.channelSetupOk);
      if status == Fail {
        return;
      }
      isConfigured := true;
    }

    /**
     * The header part of `process_config` (GPUCGGadget.cpp:86-156): a
     * header with other than one encoding space is refused, and only a stage
     * not yet configured runs `SetUp`; a configured stage keeps its shape.
     */
    method ConfigureFromHeader(header: StreamHeader, env: DeviceEnv) returns (status: Status)
      requires Valid()
      modifies this`samplesPerProfile, this`channels, this`matrixSize, this`matrixSizeOs
      modifies this`solverIterations, this`solverTolerance, this`regularizationWeight
      modifies this`coilChannels, this`accumulation, this`isConfigured
      ensures Valid()
      ensures status == (if |header.encodings| == 1 && (!old(isConfigured) ==> env.warpSize.Some? && env.channelSetupOk)
                         then Ok else Fail)
      ensures isConfigured <==> old(isConfigured) || status == Ok
      ensures old(isConfigured) ==>
                unchanged(this`samplesPerProfile, this`channels, this`matrixSize, this`matrixSizeOs, this`coilChannels, this`accumulation) &&
                unchanged(this`solverIterations, this`solverTolerance, this`regularizationWeight)
      ensures !old(isConfigured) && status == Ok ==>
                SetUpFrom(header.encodings[0], header, env.warpSize.value) && coilChannels == channels && accumulation == []
      ensures !old(isConfigured) && |header.encodings| == 1 && env.warpSize.Some? ==>
                SetUpFrom(header.encodings[0], header, env.warpSize.value)
    {
      if |header.encodings| != 1 {
        return Fail;
      }
      status := Ok;
      if !isConfigured {
        status := SetUp(header.encodings[0], header, env);
      }
    }

    /**
     * The slice and device selection of `process_config`
     * (GPUCGGadget.cpp:46-64): the slice and device numbers are read, the
     * call fails when the device count cannot be queried or is 0, and an
     * index at or past the count is reduced modulo the count.
     */
    method SelectStageDevice(params: Parameters, deviceCount: Option<nat>) returns (ok: bool)
      requires Valid()
      modifies this`sliceNo, this`deviceNumber
      ensures Valid()
      ensures sliceNo == params.sliceNo
      ensures ok <==> SelectDevice(params.deviceNo, deviceCount).Some?
      ensures deviceNumber == if ok then SelectDevice(params.deviceNo, deviceCount).value else params.deviceNo
    {
      sliceNo := params.sliceNo;
      deviceNumber := params.deviceNo;
      if deviceCount.None? || deviceCount.value == 0 {
        return false;
      }
      if deviceNumber >= deviceCount.value {
        deviceNumber := deviceNumber % deviceCount.value;
      }
      return true;
    }

    /**
     * `process_config` (GPUCGGadget.cpp:42-159): the slice and device
     * parameters are read, the device index is brought into range of the
     * device count, the frame parameters are read, and a header with other
     * than one encoding space is refused. Only while the stage is not yet
     * configured does it run `SetUp`; a configured stage keeps its shape.
     */
    method ProcessConfig(params: Parameters, header: StreamHeader, env: DeviceEnv) returns (status: Status)
      requires Valid()
      modifies this`sliceNo, this`deviceNumber
      modifies this`profilesPerFrame, this`sharedProfiles, this`numberOfIterations, this`cgLimit
      modifies this`oversampling, this`kernelWidth, this`kappa, this`passOnUndesiredData, this`imageSeries
      modifies this`samplesPerProfile, this`channels, this`matrixSize, this`matrixSizeOs
      modifies this`solverIterations, this`solverTolerance, this`regularizationWeight
      modifies this`coilChannels, this`accumulation, this`isConfigured
      ensures Valid()
      ensures sliceNo == params.sliceNo
      ensures deviceNumber == match SelectDevice(params.deviceNo, env.deviceCount)
                              case Some(d) => d
                              case None => params.deviceNo
      ensures status == Ok || status == Fail
      ensures status == Ok <==>
                SelectDevice(params.deviceNo, env.deviceCount).Some? && env.setDeviceOk && |header.encodings| == 1 &&
                (!old(isConfigured) ==> env.warpSize.Some? && env.channelSetupOk)
      ensures isConfigured <==> old(isConfigured) || status == Ok
      // the parameters are read once the device is set, before the header is inspected
      ensures SelectDevice(params.deviceNo, env.deviceCount).Some? && env.setDeviceOk ==> HasParameters(params)
      ensures !(SelectDevice(params.deviceNo, env.deviceCount).Some? && env.setDeviceOk) ==>
                unchanged(this`profilesPerFrame, this`sharedProfiles, this`numberOfIterations, this`cgLimit) &&
                unchanged(this`oversampling, this`kernelWidth, this`kappa, this`passOnUndesiredData, this`imageSeries)
      ensures old(isConfigured) ==>
                unchanged(this`samplesPerProfile, this`channels, this`matrixSize, this`matrixSizeOs, this`coilChannels, this`accumulation) &&
                unchanged(this`solverIterations, this`solverTolerance, this`regularizationWeight)
      ensures !old(isConfigured) && status == Ok ==>
                SetUpFrom(header.encodings[0], header, env.warpSize.value) && coilChannels == channels && accumulation == []
      // the shape is taken before the channel setup, so it stays when only that fails
      ensures SelectDevice(params.deviceNo, env.deviceCount).Some? && env.setDeviceOk &&
              !old(isConfigured) && |header.encodings| == 1 && env.warpSize.Some? ==>
                SetUpFrom(header.encodings[0], header, env.warpSize.value)
    {
      var selected := SelectStageDevice(params, env.deviceCount);
      if !selected || !env.setDeviceOk {
        return Fail;
      }
      ReadParameters(params);
      status := ConfigureFromHeader(header, env);
    }
  }
}
