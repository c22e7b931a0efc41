/**
 * The configuration inputs of the SENSE stage and the normalisations
 * `process_config` applies to them (gadgets/cgsense/GPUCGGadget.cpp:42-159).
 */
module CgConfig {
  import opened Types
  import opened DivMod

  type Positive = x: int | x > 0 witness 1

  /** The stage's parameters as the parameter store hands them out (`get_int_value`, `get_double_value`, `get_bool_value`). */
  datatype Parameters = Parameters(
    sliceNo: int,
    deviceNo: int,
    profilesPerFrame: int,
    sharedProfiles: int,
    numberOfIterations: int,
    cgLimit: real,
    oversampling: real,
    kernelWidth: real,
    kappa: real,
    passOnUndesiredData: bool,
    imageSeries: int)

  /** One encoding space of the stream header: its encoded matrix size. */
  datatype EncodingSpace = EncodingSpace(matrixX: uint16, matrixY: uint16)

  /** The parts of the stream's XML header the stage reads. */
  datatype StreamHeader = StreamHeader(
    encodings: seq<EncodingSpace>,
    receiverChannels: Option<uint16>)   // acquisitionSystemInformation.receiverChannels, when present

  /**
   * What the device layer answers during configuration: the device count
   * (`None` when the query fails), whether selecting the device succeeds,
   * the warp size (`None` when the property query fails), and whether the
   * channel-dependent setup (`configure_channels`) succeeds.
   */
  datatype DeviceEnv = DeviceEnv(
    deviceCount: Option<nat>,
    setDeviceOk: bool,
    warpSize: Option<Positive>,
    channelSetupOk: bool)

  /**
   * The device index actually used: `None` when the count cannot be queried
   * or no device exists; an index at or past the count is reduced modulo
   * the count, any other is kept (GPUCGGadget.cpp:50-64).
   */
  function SelectDevice(requested: int, count: Option<nat>): Option<int> {
    match count
    case None => None
    case Some(n) =>
      if n == 0 then None
      else if requested >= n then Some(requested % n)
      else Some(requested)
  }

  /** The selection fails exactly without devices, keeps every index below the count, and brings every other non-negative index into range. */
  lemma SelectDeviceFacts(requested: int, count: Option<nat>)
    ensures SelectDevice(requested, count).None? <==> count.None? || count == Some(0)
    ensures SelectDevice(requested, count).Some? && requested < count.value ==> SelectDevice(requested, count).value == requested
    ensures SelectDevice(requested, count).Some? && requested >= 0 ==> 0 <= SelectDevice(requested, count).value < count.value
    ensures SelectDevice(requested, count).Some? ==> (SelectDevice(requested, count).value - requested) % count.value == 0
  {
    if count.Some? && count.value > 0 && requested < count.value {
      DivModUnique(0, count.value, 0, 0);
    }
    if count.Some? && count.value > 0 && requested >= count.value {
      var n := count.value;
      var q, r := requested / n, requested % n;
      assert requested == n * q + r;
      assert r - requested == n * (-q) + 0;
      DivModUnique(r - requested, n, -q, 0);
    }
  }

  /** Selecting again with the selected index changes nothing. */
  lemma SelectDeviceIdempotent(requested: int, count: Option<nat>)
    requires SelectDevice(requested, count).Some?
    ensures SelectDevice(SelectDevice(requested, count).value, count) == SelectDevice(requested, count)
  {
    SelectDeviceFacts(requested, count);
  }

  /** `shared_profiles_` is capped at `profiles_per_frame_ - 1`; it is not raised from below (GPUCGGadget.cpp:81-84). */
  function ClampShared(shared: int, profiles: int): int {
    if shared > profiles - 1 then profiles - 1 else shared
  }

  /** The cap: the result never exceeds `profiles - 1` or `shared`, and equals `shared` whenever that is already in range. */
  lemma ClampSharedFacts(shared: int, profiles: int)
    ensures ClampShared(shared, profiles) <= profiles - 1
    ensures ClampShared(shared, profiles) <= shared
    ensures shared <= profiles - 1 <==> ClampShared(shared, profiles) == shared
    ensures ClampShared(ClampShared(shared, profiles), profiles) == ClampShared(shared, profiles)
    ensures 0 <= shared && 1 <= profiles ==> 0 <= ClampShared(shared, profiles) < profiles
  {
  }

  /** `channels_` from the header: the receiver channel count when present, otherwise 1 (GPUCGGadget.cpp:111-112). */
  function ReceiverChannels(header: StreamHeader): (r: nat)
    ensures header.receiverChannels.Some? ==> r == header.receiverChannels.value
    ensures header.receiverChannels.None? ==> r == 1
  {
    match header.receiverChannels
    case Some(c) => c
    case None => 1
  }

  /** The least integer not below `x` (`ceil`). */
  function Ceil(x: real): (r: int)
    ensures x <= r as real < x + 1.0
  {
    if x.Floor as real == x then x.Floor else x.Floor + 1
  }

  /**
   * The oversampled matrix extent: `size * oversampling` rounded up to a
   * multiple of the warp size (GPUCGGadget.cpp:118-120), computed in exact
   * real arithmetic.
   */
  function OversampledSize(size: nat, oversampling: real, warp: Positive): int {
    Ceil((size as real * oversampling) / warp as real) * warp
  }

  /** The oversampled extent is a multiple of the warp size, at least `size * oversampling`, and less than one warp above it. */
  lemma OversampledSizeFacts(size: nat, oversampling: real, warp: Positive)
    ensures OversampledSize(size, oversampling, warp) % warp == 0
    ensures size as real * oversampling <= OversampledSize(size, oversampling, warp) as real
    ensures (OversampledSize(size, oversampling, warp) as real) < size as real * oversampling + warp as real
  {
    var y, w := size as real * oversampling, warp as real;
    var c := Ceil(y / w);
    assert c * warp == warp * c;
    DivByFactor(c, warp);
    assert (c * warp) as real == c as real * w;
    assert y / w * w == y;
    ScaleBounds(y / w, c as real, w);
  }

  /** A multiple of the warp size leaves no remainder. */
  lemma DivByFactor(c: int, warp: Positive)
    ensures (c * warp) % warp == 0
  {
    DivModUnique(c * warp, warp, c, 0);
  }

  /** Bounds on `c` survive scaling by a positive `w`. */
  lemma ScaleBounds(x: real, c: real, w: real)
    requires x <= c < x + 1.0 && w > 0.0
    ensures x * w <= c * w < x * w + w
  {
    assert c * w - x * w == (c - x) * w;
    assert (x + 1.0) * w - c * w == (x + 1.0 - c) * w;
  }
}
