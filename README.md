# Frame assembly of two MRI reconstruction stages

This project models two stages of the Gadgetron streaming reconstruction
pipeline, covering the bookkeeping around the numerics, and proves
properties of that model.

**The iterative non-Cartesian SENSE stage** (`GPUCGGadget`, modules `CgConfig`,
`SlidingWindow`, `HostLayout`, `CgSense`):

- `process_config` selects a device and brings indices at or above the
  device count into range. It reads the frame parameters and caps `shared_profiles` at
  `profiles_per_frame - 1`. It refuses headers with other than one encoding
  space, and runs the one-time setup only while the stage is not yet
  configured.
- `process` fails before configuration. It forwards or releases profiles of
  other slices. For its own slice it:
  - follows changes of sample count, channel count and imaging plane;
  - appends the profile to the sliding window `buffer_`;
  - once the window holds `profiles_per_frame` profiles, stages the window
    into the host array, reconstructs and emits one image with the next
    `image_counter_`, and slides the window by
    `profiles_per_frame - shared_profiles`.
- `upload_samples` reallocates the host array only when the frame size
  changes. It walks the window from the newest profile backwards and copies
  every channel of each profile with `copy_samples_for_profile` to float
  offset `(c * allocated_samples + slot * samples_per_profile) * 2`. The
  k-th newest profile goes to slot `profiles_per_frame - 1 - k`
  (GPUCGGadget.cpp:459), so the newest is in the last slot.
- `parameter_changed` re-reads `profiles_per_frame` and ignores every other
  name.

The stage is a class, `CgSense.GpuCgGadget`, whose fields are the C++
members. The host staging array is a Dafny `array<real>`. The staging loop,
the channel loop and the slide loop are `while` loops, proved against
specification functions:

- `HostLayout.StageWindow` and `HostLayout.StageProfile` describe the
  staging loop as the source writes it.
- `HostLayout.Frame` is an independent reference definition of the frame,
  built float by float from the layout.
- `SlidingWindow.WindowStep` and `SlidingWindow.Feed` describe the window.

The lemmas connect these specification functions:

- the staged array is the frame (`HostLayout.StagedIsFrame`);
- the staging regions are disjoint and tile the array
  (`HostLayout.RegionsDisjoint`, `HostLayout.LocateOffset`);
- reading a region back gives the profile's channel
  (`HostLayout.FrameRoundTrip`);
- the window always holds the newest profiles, and its length and the
  number of frames fired have a closed form
  (`SlidingWindow.FeedSuffix`, `SlidingWindow.FeedCounts`,
  `SlidingWindow.Accounting`).

**The Cartesian FFT stage** (`FFTGadget`, module `FftRecon`): for every recon
bit, and for every `(s, n, loc)` with `s` outermost and `loc` innermost, the
stage does the following.

- It allocates an `[RO, E1, E2, CHA]` image.
- It fills the header from the acquisition header at
  `(centre E1, centre E2, loc, n, s)`.
- It numbers the image with `++image_counter_`.
- It copies the `RO*E1*E2*CHA` block that starts at element
  `(0, 0, 0, 0, loc, n, s)`.
- It applies the inverse FFT along axes 0 and 1, and along axis 2 when
  `E2 > 1`.
- It hands the image on.

The first failing allocation or hand-off ends the call with `GADGET_FAIL`.
The class `FftRecon.FftGadget` holds the counter and the downstream queue,
and its `Process` runs the source's four nested loops. The method is proved
against `FftRecon.Delivered`, which says what the counter and queue become.
That predicate is stated over `FftRecon.AllImages`, the list of images in
loop order. Lemmas then establish:

- how many images there are;
- where each `(s, n, loc)` image sits in the output and what it holds;
- that the slabs it copies are disjoint;
- that the indices it carries are consecutive.

The Fourier transform itself is opaque. An image records the k-space block
it was cut from and the axes that were transformed.

## Model

| member | source | states |
|---|---|---|
| Types.Trunc16 | gadgets/mri_core/FFTGadget.cpp:24-30 | storing an integer in a `uint16_t` keeps it unchanged when it fits and is congruent to it modulo 2^16 in any case |
| CgConfig.SelectDeviceFacts | gadgets/cgsense/GPUCGGadget.cpp:50-64 | device selection fails exactly when the count cannot be queried or is 0; the selected index equals the requested one when that is below the count; any non-negative request is brought into `[0, count)`; the selected index is congruent to the requested one modulo the count |
| CgConfig.SelectDeviceIdempotent | gadgets/cgsense/GPUCGGadget.cpp:61-64 | selecting again with the selected index gives the same device |
| CgConfig.ClampSharedFacts | gadgets/cgsense/GPUCGGadget.cpp:81-84 | the capped `shared_profiles` is at most `profiles - 1` and at most the request; it equals the request exactly when the request is in range; the cap is idempotent; a non-negative request with `profiles >= 1` ends in `[0, profiles)` |
| CgConfig.ReceiverChannels | gadgets/cgsense/GPUCGGadget.cpp:111-112 | the channel count is the header's receiver channel count when present and 1 otherwise |
| CgConfig.Ceil | gadgets/cgsense/GPUCGGadget.cpp:118-120 | `ceil(x)` is the integer in `[x, x + 1)` |
| CgConfig.OversampledSizeFacts | gadgets/cgsense/GPUCGGadget.cpp:118-120 | the oversampled extent is a multiple of the warp size, at least `size * oversampling`, and less than one warp above it |
| SlidingWindow.SlideCount | gadgets/cgsense/GPUCGGadget.cpp:383 | the slide loop runs `profiles - shared` times when that is positive and never otherwise |
| SlidingWindow.Slide | gadgets/cgsense/GPUCGGadget.cpp:383-387 | dequeuing `k` head profiles succeeds exactly when the window holds at least `k`; what is left is the window's last `len - k` profiles |
| SlidingWindow.WindowStepSuffix | gadgets/cgsense/GPUCGGadget.cpp:245-387 | after a profile is accepted and a frame, if one fires, succeeds, the window is a suffix of the old window plus the new profile, shortened by `SlideCount` exactly when the frame fired |
| SlidingWindow.WindowStepBlocks | gadgets/cgsense/GPUCGGadget.cpp:247-387 | a step blocks on an empty queue exactly when a frame fires and `profiles - shared` exceeds the window's length |
| SlidingWindow.WindowStepNormal | gadgets/cgsense/GPUCGGadget.cpp:245-387 | with `0 <= shared < profiles`, a window that has not fired yet never blocks and stays shorter than `profiles`; a frame fires exactly when it reaches `profiles`, and the slide keeps `shared` profiles |
| SlidingWindow.Advance | gadgets/cgsense/GPUCGGadget.cpp:245-387 | for a configured stage, one step of the window is never blocked |
| SlidingWindow.Feed | gadgets/cgsense/GPUCGGadget.cpp:245-387 | fed profile by profile from empty, the window always holds fewer than `profiles` profiles between calls |
| SlidingWindow.FeedCounts | gadgets/cgsense/GPUCGGadget.cpp:245-387 | after `m` profiles the window holds `m` profiles while `m < profiles` and `shared + (m - profiles) % (profiles - shared)` after that; `1 + (m - profiles) / (profiles - shared)` frames have fired |
| SlidingWindow.FeedSuffix | gadgets/cgsense/GPUCGGadget.cpp:245-387 | the window is always the newest profiles accepted, in arrival order |
| SlidingWindow.Accounting | gadgets/cgsense/GPUCGGadget.cpp:383-387 | frames fired times `profiles - shared` (how far `current_profile_offset_` moved) plus the window's length is the number of profiles accepted |
| HostLayout.OffsetAsRow | gadgets/cgsense/GPUCGGadget.cpp:402-403 | with `allocated == samples * profiles`, the region of (c, slot) is row `c * profiles + slot` of a table with rows `2 * samples` floats wide, and the array is `channels * profiles` such rows |
| HostLayout.RegionFits | gadgets/cgsense/GPUCGGadget.cpp:402-426 | the region of every (channel, slot) lies inside the `channels * samples_needed * 2` floats allocated |
| HostLayout.RegionsDisjoint | gadgets/cgsense/GPUCGGadget.cpp:402-405 | two regions that share a float belong to the same (channel, slot) at the same place |
| HostLayout.Locate | gadgets/cgsense/GPUCGGadget.cpp:402-403 | every float of a frame belongs to an in-range (channel, slot, place) whose offset is that float |
| HostLayout.LocateOffset | gadgets/cgsense/GPUCGGadget.cpp:402-403 | locating the float at place `j` of region (c, slot) gives back (c, slot, j): offset and location are inverse |
| HostLayout.ChannelData | gadgets/cgsense/GPUCGGadget.cpp:404-405 | the copy takes `2 * samples_per_profile` floats of channel `c` |
| HostLayout.ChannelDataOfSamples | gadgets/cgsense/GPUCGGadget.cpp:404-405 | the floats copied are the profile's own floats from `c * samples * 2` on, whenever its array is long enough |
| HostLayout.WriteRegion | gadgets/cgsense/GPUCGGadget.cpp:402-405 | a `memcpy` keeps the length of the host array |
| HostLayout.StageProfileAt | gadgets/cgsense/GPUCGGadget.cpp:461-463 | after the channel loop has copied channels below `c` into a slot, those regions hold the profile's channels and every other region is unchanged |
| HostLayout.StageProfileBeyond | gadgets/cgsense/GPUCGGadget.cpp:461-463 | the channel loop never writes past the frame's length |
| HostLayout.StageWindowAt | gadgets/cgsense/GPUCGGadget.cpp:442-467 | after the `k` newest profiles are staged, slot `s >= profiles - k` holds profile `window[len - profiles + s]` in every channel, and the other slots keep their old content |
| HostLayout.StageWindowStepAt | gadgets/cgsense/GPUCGGadget.cpp:458-463 | staging the `k`-th newest profile writes only the regions of its slot `profiles - k` |
| HostLayout.StageWindowBeyond | gadgets/cgsense/GPUCGGadget.cpp:442-467 | the staging loop never writes past the frame's length |
| HostLayout.StagedAt | gadgets/cgsense/GPUCGGadget.cpp:442-467 | every float of a fully staged region (c, s) comes from channel `c` of the profile in slot `s` |
| HostLayout.Frame | gadgets/cgsense/GPUCGGadget.cpp:469-471 | the reference frame, defined float by float through `Locate`, has `channels * samples_needed * 2` floats |
| HostLayout.FrameAt | gadgets/cgsense/GPUCGGadget.cpp:469-471 | float `j` of region (c, s) of the frame is float `j` of channel `c` of the profile in slot `s` |
| HostLayout.FrameRegion | gadgets/cgsense/GPUCGGadget.cpp:469-471 | region (c, slot) of the frame is exactly channel `c` of `window[len - profiles + slot]` |
| HostLayout.FrameRoundTrip | gadgets/cgsense/GPUCGGadget.cpp:459-462 | reading region (c, profiles-1-k) of the frame gives back channel `c` of the k-th newest profile |
| HostLayout.StagedHoldsWindow | gadgets/cgsense/GPUCGGadget.cpp:442-467 | the staging loop fills every region from the window |
| HostLayout.FrameFromRegions | gadgets/cgsense/GPUCGGadget.cpp:469-471 | an array whose every region holds the window starts with the frame: the regions tile it |
| HostLayout.StagedTail | gadgets/cgsense/GPUCGGadget.cpp:442-467 | the floats past the frame keep their values |
| HostLayout.StagedIsFrame | gadgets/cgsense/GPUCGGadget.cpp:436-471 | whatever the array held before, the staged array is the reference frame followed by the untouched tail |
| HostLayout.PackedLayout | gadgets/cgsense/GPUCGGadget.cpp:413-432 | once allocated, `allocated_samples == samples * profiles` and the array has `channels * (samples * profiles) * 2` floats |
| HostLayout.DeviceFrame | gadgets/cgsense/GPUCGGadget.cpp:469-477 | the device receives `channels * samples_needed * 2` floats, and none when no profile is staged |
| HostLayout.Zeros | gadgets/cgsense/GPUCGGadget.cpp:426 | a fresh array has `n` floats, all 0 |
| HostLayout.SampledRun | gadgets/cgsense/GPUCGGadget.cpp:442-456 | the staging loop gets no further than `profiles_per_frame`, and when it stops early the profile it reached has no sample array |
| HostLayout.SampledRunSampled | gadgets/cgsense/GPUCGGadget.cpp:451-456 | every profile the staging loop got past carries a sample array |
| HostLayout.SampledRunStops | gadgets/cgsense/GPUCGGadget.cpp:453-456 | once a profile without samples is met, the run ends there whatever the limit |
| HostLayout.SampledRunGrows | gadgets/cgsense/GPUCGGadget.cpp:451-466 | a profile with samples extends the run by one |
| HostLayout.StageWindowNext | gadgets/cgsense/GPUCGGadget.cpp:458-466 | one more pass of the staging loop copies the `k`-th newest profile into slot `profiles - 1 - k` |
| CgSense.Pixels | gadgets/cgsense/GPUCGGadget.cpp:347-352 | the copied result has the requested number of pixels (`prod(matrix_size_)` at the call), each equal to the solver's pixel at that place wherever the solver has one |
| CgSense.FrameImage | gadgets/cgsense/GPUCGGadget.cpp:336-373 | the emitted image is `matrix_size` by 1, has one channel, takes slice, time stamp, position, quaternion and table position from the completing profile, and has 16-bit index and series; it has `matrix_size[0] * matrix_size[1]` pixels |
| CgSense.CopySamplesForProfile | gadgets/cgsense/GPUCGGadget.cpp:396-408 | the host array afterwards is the old one with region (c, slot) replaced by channel `c` of the profile |
| CgSense.StageChannels | gadgets/cgsense/GPUCGGadget.cpp:461-463 | the host array afterwards is `StageProfile` with every channel copied |
| CgSense.StageWindowInto | gadgets/cgsense/GPUCGGadget.cpp:436-467 | the host array afterwards is `StageWindow` of the profiles the loop got through; it succeeds exactly when all `profiles_per_frame` newest profiles carry samples |
| CgSense.GpuCgGadget.constructor | gadgets/cgsense/GPUCGGadget.cpp:12-38 | every field takes its initial value (32 profiles per frame, 5 iterations, limit 1e-6, oversampling 1.25, kernel width 5.5, kappa 0.1, passing on other slices, nothing allocated or configured) |
| CgSense.GpuCgGadget.ConfigureChannels | gadgets/cgsense/GPUCGGadget.cpp:162-195 | on success a fresh right-hand-side buffer for `channels_` coils replaces the old one; on failure nothing tracked changes |
| CgSense.GpuCgGadget.AllocateHostData | gadgets/cgsense/GPUCGGadget.cpp:413-434 | reallocates exactly when `samples * profiles != allocated_samples`; afterwards `allocated_samples == samples * profiles` with a fresh array of `channels * samples_needed * 2` floats; otherwise the array is untouched; a failing allocation leaves no array and `allocated_samples == 0` |
| CgSense.GpuCgGadget.AllocatedFits | gadgets/cgsense/GPUCGGadget.cpp:413-432 | a matching host array takes a whole frame |
| CgSense.GpuCgGadget.UploadSamples | gadgets/cgsense/GPUCGGadget.cpp:410-486 | states the allocation outcome and the host array afterwards (`StageWindow` of the old or freshly zeroed array); a device array is returned exactly when allocation, every downcast and the upload succeed, and it is `DeviceFrame(buffer)` |
| CgSense.GpuCgGadget.AccumulateFrame | gadgets/cgsense/GPUCGGadget.cpp:249-279 | fails exactly when the trajectory, density compensation, upload or preprocessing fails; on success exactly the uploaded frame is added to the accumulation and `allocated_samples_ == samples_per_profile * profiles_per_frame`; a trajectory or density-compensation failure leaves the host array and `allocated_samples_` alone; once the upload is reached, `allocated_samples_` is `samples_needed` and the array is kept for an unchanged frame size and replaced by a fresh one of `channels * samples_needed * 2` floats otherwise, or there is no array and `allocated_samples_` is 0 when the allocation fails |
| CgSense.GpuCgGadget.EmitImage | gadgets/cgsense/GPUCGGadget.cpp:281-379 | the counter advances exactly when the steps up to the result copy succeed; the image with the new counter value is put downstream exactly when the hand-off succeeds as well |
| CgSense.GpuCgGadget.ReconstructFrame | gadgets/cgsense/GPUCGGadget.cpp:249-379 | status, counter, accumulation and queue after one frame, as functions of which collaborator steps fail; the host array and `allocated_samples_` are left as `AccumulateFrame` says: untouched on a trajectory or density-compensation failure, as the allocation leaves them otherwise |
| CgSense.GpuCgGadget.SlideWindow | gadgets/cgsense/GPUCGGadget.cpp:381-387 | dequeues `SlideCount` head profiles, releases them and advances `current_profile_offset_` by as many; when the window runs dry the call blocks after dequeuing all of it |
| CgSense.GpuCgGadget.AdjustToProfile | gadgets/cgsense/GPUCGGadget.cpp:224-236 | the cached sample and channel counts take the profile's; `allocated_samples` becomes 0 exactly when either changed; only a channel change redoes the channel setup, and its failure fails the call |
| CgSense.GpuCgGadget.TrackGeometry | gadgets/cgsense/GPUCGGadget.cpp:238-243 | the cached position and quaternion take the profile's; the accumulation is cleared exactly when either differed |
| CgSense.GpuCgGadget.AcceptProfile | gadgets/cgsense/GPUCGGadget.cpp:220-245 | fails exactly when the channel count changed and the setup fails; the cached sample and channel counts take the profile's; `allocated_samples_` becomes 0 exactly when either count changed; the coil buffer is set up again exactly when the channel count changed and the setup succeeds; on success the cached geometry takes the profile's, the accumulation is cleared by a new channel count or imaging plane and kept otherwise, and the profile is appended at the tail of the window; on failure window, geometry and accumulation are unchanged; counter, queue, offset and released profiles are unchanged either way |
| CgSense.GpuCgGadget.CompleteFrame | gadgets/cgsense/GPUCGGadget.cpp:247-388 | the status is `FrameStatus` and the window, accumulation, counter, queue, released profiles and offset are `FrameResult` of the state before the frame: fails exactly when a step up to the result copy or the hand-off fails; the counter advances exactly when the steps up to the result copy succeed; the accumulation gains exactly the staged frame when the steps up to preprocessing succeed; a failed frame leaves window, offset and released profiles unchanged; otherwise the image with the new counter value is emitted and the `SlideCount` head profiles are dequeued, released and counted in the offset, or the call blocks once the window is empty; the host array and `allocated_samples_` as in `ReconstructFrame` |
| CgSense.GpuCgGadget.FrameWhenFull | gadgets/cgsense/GPUCGGadget.cpp:247-388 | a window short of `profiles_per_frame_` succeeds and changes nothing; a full one is completed as `CompleteFrame` says; settings, shape and geometry are left alone; a success leaves the window slid by `SlideCount` when a frame fired, and a blocked call had a frame fire on a window shorter than the slide |
| CgSense.GpuCgGadget.Process | gadgets/cgsense/GPUCGGadget.cpp:197-393 | fails before configuration and changes nothing; no profile changes the device, frame and solver parameters, the pass-on flag, the image series, the sizes or `is_configured_`; a profile of another slice is forwarded or released, and window, counts, host array, coil buffer, accumulation, geometry, counter and offset are unchanged; a profile of this slice sets the cached counts, and a failed channel setup then fails the call with `allocated_samples_` 0 and window, host array, accumulation, geometry, counter, queue, offset and released profiles unchanged; otherwise the geometry follows the profile, `allocated_samples_` is 0 after a change of sample or channel count and unchanged otherwise, and the accumulation is cleared by a new channel count or imaging plane; without a frame the window grows by the profile and host array, counter, queue, offset and released profiles are unchanged; a fired frame ends as `FrameStatus` and `FrameResult` say for the state the profile leaves: it advances the counter exactly when the collaborators solve, accumulates exactly the staged window when they get past preprocessing, emits the image exactly on success, and then slides the window (`WindowStep` of the old one) and the offset by `SlideCount`, while a failed frame leaves window, offset and released profiles alone; its upload leaves `allocated_samples_ == samples_needed` with the host array kept for an unchanged frame size, a fresh one otherwise, and no array and 0 when the allocation fails, and a trajectory or density-compensation failure leaves host array and `allocated_samples_` as the profile left them |
| CgSense.GpuCgGadget.ProcessAccepted | gadgets/cgsense/GPUCGGadget.cpp:218-393 | the outcomes of `Process` for a profile of this stage's slice, stated for the state before the profile is taken in |
| CgSense.GpuCgGadget.ParameterChanged | gadgets/cgsense/GPUCGGadget.cpp:488-499 | always OK; only the name `profiles_per_frame` changes `profiles_per_frame_`, to the stored value, and nothing else changes |
| CgSense.GpuCgGadget.ReadParameters | gadgets/cgsense/GPUCGGadget.cpp:71-84 | the parameters take the store's values, with `shared_profiles` capped by `ClampShared` |
| CgSense.GpuCgGadget.TakeShape | gadgets/cgsense/GPUCGGadget.cpp:108-149 | samples, channels and matrix come from the header, the oversampled matrix is rounded up to warps, and the solver gets the iteration limit, tolerance and weight |
| CgSense.GpuCgGadget.SetUp | gadgets/cgsense/GPUCGGadget.cpp:100-156 | fails when the warp size cannot be queried or the channel setup fails; the stage becomes configured exactly on success |
| CgSense.GpuCgGadget.ConfigureFromHeader | gadgets/cgsense/GPUCGGadget.cpp:86-156 | refuses other than one encoding space; a configured stage keeps its shape and solver settings; only an unconfigured one runs the setup, and with one encoding space and a warp size it takes the shape, sizes and solver settings from the header even when the channel setup then fails |
| CgSense.GpuCgGadget.SelectStageDevice | gadgets/cgsense/GPUCGGadget.cpp:46-64 | reads the slice number and selects the device by `SelectDevice` |
| CgSense.GpuCgGadget.ProcessConfig | gadgets/cgsense/GPUCGGadget.cpp:42-159 | succeeds exactly when a device is selected and set, the header has one encoding space and, for an unconfigured stage, the warp query and channel setup succeed; once the device is selected and set the parameters are as read and capped, even when the header is then refused, and before that they are unchanged; `is_configured_` becomes true only on success; a configured stage keeps its shape and solver settings; an unconfigured one with a selected device, one encoding space and a warp size takes its shape, sizes and solver settings from the header even when only the channel setup fails |
| FftRecon.Narrow | gadgets/mri_core/FFTGadget.cpp:24-30 | the `uint16_t` extents never exceed the real ones and equal them below 2^16 |
| FftRecon.InverseAxes | gadgets/mri_core/FFTGadget.cpp:86-90 | the transforms run along axes 0 and 1 first, in increasing order, and along axis 2 exactly when `E2 > 1` |
| FftRecon.CountIsProduct | gadgets/mri_core/FFTGadget.cpp:40-42 | a recon bit yields `S*N*LOC` images |
| FftRecon.OrdinalBounds | gadgets/mri_core/FFTGadget.cpp:40-42 | the position of an in-range (s, n, loc) lies below `S*N*LOC` |
| FftRecon.OrdinalOrder | gadgets/mri_core/FFTGadget.cpp:40-42 | positions follow the loop order (`s` outermost, `loc` innermost) in both directions, and distinct triples get distinct positions |
| FftRecon.Decode | gadgets/mri_core/FFTGadget.cpp:40-42 | every position below `S*N*LOC` is the position of an in-range triple |
| FftRecon.DecodeOfOrdinal | gadgets/mri_core/FFTGadget.cpp:40-42 | decoding the position of a triple gives the triple back |
| FftRecon.SlabOffsetIsBlocks | gadgets/mri_core/FFTGadget.cpp:83 | element (0, 0, 0, 0, loc, n, s) is block number `loc + LOC*(n + N*s)` of the data array |
| FftRecon.ImageWithinBlock | gadgets/mri_core/FFTGadget.cpp:24-83 | the `uint16_t` extents never make the copy longer than a block |
| FftRecon.SlabsDisjoint | gadgets/mri_core/FFTGadget.cpp:40-83 | every slab copied lies inside the data array, and the slabs of two triples in loop order do not overlap |
| FftRecon.SlabInside | gadgets/mri_core/FFTGadget.cpp:83 | the slab copied for an in-range triple lies inside the data array |
| FftRecon.HeaderInside | gadgets/mri_core/FFTGadget.cpp:61-63 | the centre header of an in-range triple lies inside the header array |
| FftRecon.Cut | gadgets/mri_core/FFTGadget.cpp:33-90 | the image for (s, n, loc) has dims `[RO, E1, E2, CHA]`, matrix size `(RO, E1, E2)` and CHA channels; it holds `RO*E1*E2*CHA` elements and its inverse axes; it has the recon field of view and data type CXFLOAT; slice, position, directions and table position come from the acquisition header at (centre E1, centre E2, loc, n, s) |
| FftRecon.Offset4Inside | gadgets/mri_core/FFTGadget.cpp:83 | an in-range index of an image lies inside it |
| FftRecon.CutElement | gadgets/mri_core/FFTGadget.cpp:83 | element (i0, i1, i2, i3) of the image for (s, n, loc) is element (i0, i1, i2, i3, loc, n, s) of the recon bit's data |
| FftRecon.BitImages | gadgets/mri_core/FFTGadget.cpp:40-42 | a recon bit yields `Count` images |
| FftRecon.BitImagesAt | gadgets/mri_core/FFTGadget.cpp:40-42 | the image for (s, n, loc) comes at position `loc + LOC*(n + N*s)` among the images of its bit |
| FftRecon.AllImagesCount | gadgets/mri_core/FFTGadget.cpp:17-42 | a call yields the sum of `S*N*LOC` over its recon bits |
| FftRecon.PlanSlice | gadgets/mri_core/FFTGadget.cpp:17-19 | the images of bit `b` directly follow those of the bits before it |
| FftRecon.AllImagesOfBit | gadgets/mri_core/FFTGadget.cpp:17-19 | image `k` of bit `b` comes after all the images of the bits before it |
| FftRecon.AllImagesAt | gadgets/mri_core/FFTGadget.cpp:17-42 | the image for (s, n, loc) of bit `b` is at `Position(b, s, n, loc)` among all the images of a call |
| FftRecon.Stamped | gadgets/mri_core/FFTGadget.cpp:80 | numbering keeps the number of images |
| FftRecon.StampedIndices | gadgets/mri_core/FFTGadget.cpp:80 | the i-th image gets index `c0 + i + 1` as a `uint16_t`, nothing else changes, and consecutive indices differ by 1 modulo 2^16 |
| FftRecon.FirstFailure | gadgets/mri_core/FFTGadget.cpp:51-95 | the first failing attempt lies in range |
| FftRecon.FirstFailureIsFirst | gadgets/mri_core/FFTGadget.cpp:51-95 | `FirstFailure` is `k` exactly when every attempt before `k` succeeds and `k` fails unless it is the end |
| FftRecon.ProgressStart | gadgets/mri_core/FFTGadget.cpp:13-17 | before the first attempt the counter and queue are as they were |
| FftRecon.DeliverOne | gadgets/mri_core/FFTGadget.cpp:51-95 | a successful attempt sends its image downstream with the next counter value |
| FftRecon.DeliverFails | gadgets/mri_core/FFTGadget.cpp:51-95 | a failing attempt ends the call with `GADGET_FAIL`; a failed allocation has not advanced the counter and a failed hand-off has |
| FftRecon.DeliverAll | gadgets/mri_core/FFTGadget.cpp:100 | when every attempt succeeded the call returns `GADGET_OK` |
| FftRecon.DeliveredFacts | gadgets/mri_core/FFTGadget.cpp:13-102 | a call only appends to the queue, and at most one image per planned image; it succeeds exactly when all planned images went out; the counter then advanced by their number; after a failure the next attempt is the failing one and the counter moved by 0 or 1 more than the images sent; the indices sent continue the counter |
| FftRecon.DeliveredAt | gadgets/mri_core/FFTGadget.cpp:80-95 | after a successful call, planned image `i` is the queue element at `i` past the old end, numbered `c0 + i + 1` |
| FftRecon.OutputAt | gadgets/mri_core/FFTGadget.cpp:13-102 | after a successful call, the image for (s, n, loc) of bit `b` went out at `Position(b, s, n, loc)` past the old end of the queue, with index `c0 + Position + 1` |
| FftRecon.FftGadget.constructor | gadgets/mri_core/FFTGadget.cpp:6-10 | the counter starts at 0 and nothing has been sent |
| FftRecon.FftGadget.Process | gadgets/mri_core/FFTGadget.cpp:13-102 | status, counter and queue after the call are `Delivered` over all the images of the call in loop order |
| FftRecon.FftGadget.ProcessBit | gadgets/mri_core/FFTGadget.cpp:21-98 | the images of one recon bit are delivered in turn, or the call ends as `Delivered` with `GADGET_FAIL` |
| FftRecon.FftGadget.ProcessPlane | gadgets/mri_core/FFTGadget.cpp:40-97 | the images of one value of `s` are delivered in turn, or the call ends with `GADGET_FAIL` |
| FftRecon.FftGadget.ProcessRow | gadgets/mri_core/FFTGadget.cpp:42-96 | the images of one (s, n) are allocated, numbered, copied and handed on in turn, or the call ends with `GADGET_FAIL` |

## Left out

- The GPU is not modelled. Device queries become inputs (`DeviceEnv`): `cudaGetDeviceCount`, `cudaSetDevice`, `cudaGetDeviceProperties`, `cudaMemcpy` and `cudaGetLastError`.
- The numerical collaborators are not modelled: the encoding operator, preconditioner, regularisation operator, CG solver, coil-sensitivity estimate, trajectory and density compensation, and the preconditioner arithmetic at GPUCGGadget.cpp:312-317. Each call that can fail is a `Step` in the `FrameEnv` input. The solver's output is an opaque pixel sequence, and the right-hand-side buffer is the list of frames added to it.
- The inverse FFT (`hoNDFFT::ifft`) is not computed. An image records the k-space block it was cut from and the axes transformed.
- Floating point is not modelled: samples and geometry are `real`. The oversampled matrix size is computed in exact reals, with `ceil`, instead of in `double`. It is kept as an `int`; the `unsigned int` cast is not modelled.
- The warp size is assumed positive (`CgConfig.Positive`). A warp size of 0 would divide by zero in the source.
- The mutex is not modelled, and entry points run one at a time. Several `GADGET_FAIL` returns inside the critical section of `process` leave the mutex held in the source, for example after a failed channel setup (GPUCGGadget.cpp:235) or a failed trajectory (:253).
- 32-bit integer overflow is not modelled: the model uses unbounded integers for `samples_per_profile_ * profiles_per_frame_`, `channels_ * samples_needed * 2` and `RO*E1*E2*CHA`. A negative element count is modelled as an allocation failure, since `new float[n]` throws for it.
- `image_counter_` is unbounded in both stages. Only its store into the 16-bit `image_index` header field wraps around (`Types.Trunc16`).
- The new host array is zero-filled in the model; the source leaves it uninitialised. The staging loop overwrites the whole frame before the upload reads it (`HostLayout.StagedIsFrame`), so this is never observed within a frame.
- The failures of `tmp.create` and of the device copy in `upload_samples` are merged into one input (`DeviceUpload`).
- A read past the end of a profile's sample array, or of the solver's result, is undefined in the source. The model reads 0 (`HostLayout.SampleAt`, `CgSense.Pixels`).
- FftRecon.Cut, FftRecon.FftGadget.Process: out-of-range reads of the data or header array are undefined behaviour in the source. The model requires `WellFormed` recon bits instead: the arrays are as large as their extents and the centre lines lie inside E1 and E2.
- FftRecon.CutElement: stated only when RO, E1, E2 and CHA are below 2^16. For larger extents the `uint16_t` copy length and image extents differ from the data array's strides, and the image is not the 4-D block.
- The image header fields that neither stage sets keep their defaults and are not modelled.
- The density-compensation flag `dcw_computed_` is reset right after the weights are computed (GPUCGGadget.cpp:264). The model records only that it is never left set, so the weights are recomputed for every frame.
- The `dynamic_cast` of a window message to an acquisition header (GPUCGGadget.cpp:445-449) cannot fail here: only acquisition headers are enqueued. The cast of its continuation to a sample array is modelled (`Payload.OtherPayload`).
- The return value of `putq` when forwarding a profile of another slice is ignored in the source (GPUCGGadget.cpp:210), and the model does the same.
- Parsing of the XML header, ACE message blocks, `release`, registration (`GADGET_FACTORY_DECLARE`), the destructor and debug output are not modelled. The stream header is the `StreamHeader` datatype, and the parameter store is the `Parameters` datatype.
- The header files GPUCGGadget.h and FFTGadget.h are not part of this model. Field types are taken from their use in the .cpp files.
- Method splits: the nested s/n/loc loops and the frame steps of `process` are split into separate methods. These are `FftGadget.ProcessBit`, `ProcessPlane` and `ProcessRow`, and `GpuCgGadget.ProcessAccepted`, `AcceptProfile`, `FrameWhenFull`, `CompleteFrame`, `ReconstructFrame`, `AccumulateFrame` and `EmitImage`. Each carries the contract of the part of the source it covers.
- The staging loop and the channel loop are module-level methods over the host array (`CgSense.StageWindowInto`, `CgSense.StageChannels`). The layout fields are passed in as a `Layout` value instead of being read from the object.
