/**
 * The layout of the host staging array of the SENSE stage
 * (gadgets/cgsense/GPUCGGadget.cpp, `copy_samples_for_profile` and
 * `upload_samples`).
 *
 * The array holds floats: real and imaginary part of each complex sample.
 * It is channel-major: channel `c` owns `allocatedSamples` complex samples,
 * and inside a channel the profile in window slot `slot` owns the
 * `samplesPerProfile` samples starting at `slot * samplesPerProfile`.
 * The staging loop walks the window from its newest profile backwards and
 * writes the k-th newest into slot `profilesPerFrame - 1 - k`.
 */
module HostLayout {
  import opened DivMod
  import opened CgMessages

  /** The strides the staging code reads from the stage's fields. */
  datatype Layout = Layout(
    channels: nat,           // channels_
    samplesPerProfile: nat,  // samples_per_profile_
    profilesPerFrame: nat,   // profiles_per_frame_
    allocatedSamples: nat)   // allocated_samples_

  /** Strides of a frame whose allocation matches the window: `allocated == samples * profiles`. */
  predicate Packed(lay: Layout) {
    lay.profilesPerFrame >= 1 && lay.allocatedSamples == Times(lay.profilesPerFrame, lay.samplesPerProfile)
  }

  /** A host array of `n` floats can take a whole frame of this layout. */
  predicate Fits(lay: Layout, n: int) {
    Packed(lay) && n >= HostLength(lay)
  }

  /** Floats allocated for a frame: `channels * samples_needed * 2`. */
  function HostLength(lay: Layout): nat {
    2 * Times(lay.channels, lay.allocatedSamples)
  }

  /** Floats copied per (channel, profile): `samples_per_profile * 2`. */
  function RegionLength(lay: Layout): nat {
    2 * lay.samplesPerProfile
  }

  /** Destination of channel `c` of the profile in slot `slot`: `(c * allocated + slot * samples) * 2` (GPUCGGadget.cpp:402-403). */
  function HostOffset(lay: Layout, c: nat, slot: nat): nat {
    (Times(c, lay.allocatedSamples) + Times(slot, lay.samplesPerProfile)) * 2
  }

  /** Source of channel `c` inside a profile's sample array, in floats: `c * samples * 2` (GPUCGGadget.cpp:404). */
  function SourceOffset(lay: Layout, c: nat): nat {
    Times(c, lay.samplesPerProfile) * 2
  }

  /** In a packed layout the regions are the rows of one table, row `c * profiles + slot`. */
  lemma OffsetAsRow(lay: Layout, c: nat, slot: nat)
    requires Packed(lay)
    ensures HostOffset(lay, c, slot) == RegionLength(lay) * (c * lay.profilesPerFrame + slot)
    ensures HostLength(lay) == RegionLength(lay) * (lay.channels * lay.profilesPerFrame)
  {
    var sp, ppf, alloc := lay.samplesPerProfile, lay.profilesPerFrame, lay.allocatedSamples;
    TimesIsProduct(ppf, sp);
    TimesIsProduct(c, alloc);
    TimesIsProduct(slot, sp);
    TimesIsProduct(lay.channels, alloc);
    Regroup(c, ppf, sp, alloc, slot);
    RegroupLength(lay.channels, ppf, sp, alloc);
  }

  /** The whole region of (channel, slot) lies inside the `HostLength` floats allocated. */
  lemma RegionFits(lay: Layout, c: nat, slot: nat)
    requires Packed(lay)
    requires c < lay.channels && slot < lay.profilesPerFrame
    ensures HostOffset(lay, c, slot) + RegionLength(lay) <= HostLength(lay)
  {
    var ppf := lay.profilesPerFrame;
    OffsetAsRow(lay, c, slot);
    RowInside(ppf, c, lay.channels, slot);
    RowEnd(RegionLength(lay), c * ppf + slot, lay.channels * ppf);
  }

  /** Distinct (channel, slot) pairs own disjoint regions: a float position names one pair and one place. */
  lemma RegionsDisjoint(lay: Layout, c1: nat, s1: nat, j1: nat, c2: nat, s2: nat, j2: nat)
    requires Packed(lay)
    requires s1 < lay.profilesPerFrame && j1 < RegionLength(lay)
    requires s2 < lay.profilesPerFrame && j2 < RegionLength(lay)
    requires HostOffset(lay, c1, s1) + j1 == HostOffset(lay, c2, s2) + j2
    ensures c1 == c2 && s1 == s2 && j1 == j2
  {
    var ppf, rl := lay.profilesPerFrame, RegionLength(lay);
    OffsetAsRow(lay, c1, s1);
    OffsetAsRow(lay, c2, s2);
    var i := HostOffset(lay, c1, s1) + j1;
    DivModUnique(i, rl, c1 * ppf + s1, j1);
    DivModUnique(i, rl, c2 * ppf + s2, j2);
    DivModUnique(c1 * ppf + s1, ppf, c1, s1);
    DivModUnique(c2 * ppf + s2, ppf, c2, s2);
  }

  /** The (channel, slot, place) that float `i` of a packed frame belongs to. */
  function Locate(lay: Layout, i: nat): (r: (nat, nat, nat))
    requires Packed(lay) && i < HostLength(lay)
    ensures r.0 < lay.channels && r.1 < lay.profilesPerFrame && r.2 < RegionLength(lay)
    ensures HostOffset(lay, r.0, r.1) + r.2 == i
  {
    var ppf, rl := lay.profilesPerFrame, RegionLength(lay);
    OffsetAsRow(lay, 0, 0);
    assert rl != 0 by {
      if rl == 0 {
        assert false;
      }
    }
    Split3(i, rl, ppf, lay.channels);
    var c, slot, j := (i / rl) / ppf, (i / rl) % ppf, i % rl;
    OffsetAsRow(lay, c, slot);
    (c, slot, j)
  }

  /** Locating the float at place `j` of region (c, slot) gives back (c, slot, j). */
  lemma LocateOffset(lay: Layout, c: nat, slot: nat, j: nat)
    requires Packed(lay)
    requires c < lay.channels && slot < lay.profilesPerFrame && j < RegionLength(lay)
    ensures HostOffset(lay, c, slot) + j < HostLength(lay)
    ensures Locate(lay, HostOffset(lay, c, slot) + j) == (c, slot, j)
  {
    RegionFits(lay, c, slot);
    var r := Locate(lay, HostOffset(lay, c, slot) + j);
    RegionsDisjoint(lay, r.0, r.1, r.2, c, slot, j);
  }

  /** Float `i` of a profile's sample array; a read past its end is undefined in the source and reads 0 here. */
  function SampleAt(p: Profile, i: int): real {
    match p.payload
    case Samples(d) => if 0 <= i < |d| then d[i] else 0.0
    case OtherPayload => 0.0
  }

  /** The floats `copy_samples_for_profile` takes from channel `c` of profile `p`. */
  function ChannelData(p: Profile, lay: Layout, c: nat): (r: seq<real>)
    ensures |r| == RegionLength(lay)
  {
    seq(RegionLength(lay), j => SampleAt(p, SourceOffset(lay, c) + j))
  }

  /** The channel data is the profile's own floats whenever its array is long enough. */
  lemma ChannelDataOfSamples(p: Profile, lay: Layout, c: nat)
    requires p.payload.Samples?
    requires SourceOffset(lay, c) + RegionLength(lay) <= |p.payload.data|
    ensures ChannelData(p, lay, c) == p.payload.data[SourceOffset(lay, c)..SourceOffset(lay, c) + RegionLength(lay)]
  {
    var off := SourceOffset(lay, c);
    var d := p.payload.data[off..off + RegionLength(lay)];
    forall j | 0 <= j < RegionLength(lay)
      ensures ChannelData(p, lay, c)[j] == d[j]
    {
      assert SampleAt(p, off + j) == p.payload.data[off + j];
    }
  }

  /** A slice agrees with `d` when each of its floats does. */
  lemma SliceFromPoints(r: seq<real>, off: int, d: seq<real>)
    requires 0 <= off && off + |d| <= |r|
    requires forall j | 0 <= j < |d| :: r[off + j] == d[j]
    ensures r[off..off + |d|] == d
  {
  }

  /** `memcpy` of `data` into `a` at `off`: the region takes `data`, every other float keeps its value. */
  function WriteRegion(a: seq<real>, off: int, data: seq<real>): (r: seq<real>)
    requires 0 <= off && off + |data| <= |a|
    ensures |r| == |a|
  {
    seq(|a|, i requires 0 <= i < |a| => if off <= i < off + |data| then data[i - off] else a[i])
  }

  /** The host array after the channel loop has copied channels `0 .. c-1` of `p` into `slot`. */
  function StageProfile(a: seq<real>, p: Profile, lay: Layout, slot: nat, c: nat): (r: seq<real>)
    requires Fits(lay, |a|) && slot < lay.profilesPerFrame && c <= lay.channels
    ensures |r| == |a|
    decreases c
  {
    if c == 0 then a
    else
      RegionFits(lay, c - 1, slot);
      WriteRegion(StageProfile(a, p, lay, slot, c - 1), HostOffset(lay, c - 1, slot), ChannelData(p, lay, c - 1))
  }

  /**
   * The host array after the staging loop has copied the `k` newest profiles
   * of `window`: the i-th newest (from 0) goes to slot `profilesPerFrame - 1 - i`.
   */
  function StageWindow(a: seq<real>, window: seq<Profile>, lay: Layout, k: nat): (r: seq<real>)
    requires Fits(lay, |a|) && k <= lay.profilesPerFrame && k <= |window|
    ensures |r| == |a|
    decreases k
  {
    if k == 0 then a
    else StageProfile(StageWindow(a, window, lay, k - 1), window[|window| - k], lay, lay.profilesPerFrame - k, lay.channels)
  }

  /** After copying channels `0 .. c-1` of `p` into `slot`, those regions hold `p`'s channels and everything else is as before. */
  lemma {:induction false} StageProfileAt(a: seq<real>, p: Profile, lay: Layout, slot: nat, c: nat, c2: nat, s2: nat, j: nat)
    requires Fits(lay, |a|) && slot < lay.profilesPerFrame && c <= lay.channels
    requires c2 < lay.channels && s2 < lay.profilesPerFrame && j < RegionLength(lay)
    ensures HostOffset(lay, c2, s2) + j < |a|
    ensures StageProfile(a, p, lay, slot, c)[HostOffset(lay, c2, s2) + j]
         == if s2 == slot && c2 < c then ChannelData(p, lay, c2)[j] else a[HostOffset(lay, c2, s2) + j]
    decreases c
  {
    RegionFits(lay, c2, s2);
    if c > 0 {
      StageProfileAt(a, p, lay, slot, c - 1, c2, s2, j);
      var off, i := HostOffset(lay, c - 1, slot), HostOffset(lay, c2, s2) + j;
      RegionFits(lay, c - 1, slot);
      if off <= i < off + RegionLength(lay) {
        RegionsDisjoint(lay, c - 1, slot, i - off, c2, s2, j);
      }
    }
  }

  /** Floats past the frame's `HostLength` are never written. */
  lemma {:induction false} StageProfileBeyond(a: seq<real>, p: Profile, lay: Layout, slot: nat, c: nat, i: nat)
    requires Fits(lay, |a|) && slot < lay.profilesPerFrame && c <= lay.channels
    requires HostLength(lay) <= i < |a|
    ensures StageProfile(a, p, lay, slot, c)[i] == a[i]
    decreases c
  {
    if c > 0 {
      StageProfileBeyond(a, p, lay, slot, c - 1, i);
      RegionFits(lay, c - 1, slot);
    }
  }

  /**
   * After the `k` newest profiles are staged, slot `s` for `s >= profiles - k`
   * holds, in every channel, the profile `window[|window| - profiles + s]`;
   * the slots not yet reached keep their old contents.
   */
  lemma {:induction false} StageWindowAt(a: seq<real>, window: seq<Profile>, lay: Layout, k: nat, c: nat, s: nat, j: nat)
    requires Fits(lay, |a|) && k <= lay.profilesPerFrame && k <= |window|
    requires c < lay.channels && s < lay.profilesPerFrame && j < RegionLength(lay)
    ensures HostOffset(lay, c, s) + j < |a|
    ensures StageWindow(a, window, lay, k)[HostOffset(lay, c, s) + j]
         == if s >= lay.profilesPerFrame - k
            then ChannelData(window[|window| - lay.profilesPerFrame + s], lay, c)[j]
            else a[HostOffset(lay, c, s) + j]
    decreases k
  {
    RegionFits(lay, c, s);
    if k > 0 {
      StageWindowAt(a, window, lay, k - 1, c, s, j);
      StageWindowStepAt(a, window, lay, k, c, s, j);
      if s == lay.profilesPerFrame - k {
        assert |window| - lay.profilesPerFrame + s == |window| - k;
      }
    }
  }

  /** Staging the `k`-th newest profile changes only the regions of its slot. */
  lemma StageWindowStepAt(a: seq<real>, window: seq<Profile>, lay: Layout, k: nat, c: nat, s: nat, j: nat)
    requires Fits(lay, |a|) && 0 < k <= lay.profilesPerFrame && k <= |window|
    requires c < lay.channels && s < lay.profilesPerFrame && j < RegionLength(lay)
    ensures HostOffset(lay, c, s) + j < |a|
    ensures StageWindow(a, window, lay, k)[HostOffset(lay, c, s) + j]
         == if s == lay.profilesPerFrame - k
            then ChannelData(window[|window| - k], lay, c)[j]
            else StageWindow(a, window, lay, k - 1)[HostOffset(lay, c, s) + j]
  {
    var ppf, p := lay.profilesPerFrame, window[|window| - k];
    var prev := StageWindow(a, window, lay, k - 1);
    RegionFits(lay, c, s);
    StageProfileAt(prev, p, lay, ppf - k, lay.channels, c, s, j);
  }

  /** Staging never writes past `HostLength`. */
  lemma {:induction false} StageWindowBeyond(a: seq<real>, window: seq<Profile>, lay: Layout, k: nat, i: nat)
    requires Fits(lay, |a|) && k <= lay.profilesPerFrame && k <= |window|
    requires HostLength(lay) <= i < |a|
    ensures StageWindow(a, window, lay, k)[i] == a[i]
    decreases k
  {
    if k > 0 {
      StageWindowBeyond(a, window, lay, k - 1, i);
      StageProfileBeyond(StageWindow(a, window, lay, k - 1), window[|window| - k], lay,
                         lay.profilesPerFrame - k, lay.channels, i);
    }
  }

  /** Every float of region (c, s) of a fully staged frame comes from the profile in slot `s`. */
  lemma StagedAt(a: seq<real>, window: seq<Profile>, lay: Layout, c: nat, s: nat, j: nat)
    requires Fits(lay, |a|) && lay.profilesPerFrame <= |window|
    requires c < lay.channels && s < lay.profilesPerFrame && j < RegionLength(lay)
    ensures HostOffset(lay, c, s) + j < |a|
    ensures StageWindow(a, window, lay, lay.profilesPerFrame)[HostOffset(lay, c, s) + j]
         == ChannelData(window[|window| - lay.profilesPerFrame + s], lay, c)[j]
  {
    StageWindowAt(a, window, lay, lay.profilesPerFrame, c, s, j);
  }

  /** What float `i` of a frame holds, read off the layout: channel, slot and place of `i`, taken from the window. */
  function FrameFloat(window: seq<Profile>, lay: Layout, i: nat): real
    requires Packed(lay) && lay.profilesPerFrame <= |window| && i < HostLength(lay)
  {
    var l := Locate(lay, i);
    ChannelData(window[|window| - lay.profilesPerFrame + l.1], lay, l.0)[l.2]
  }

  /** The frame the device should receive for `window`, defined float by float and independent of the staging loop. */
  function Frame(window: seq<Profile>, lay: Layout): (r: seq<real>)
    requires Packed(lay) && lay.profilesPerFrame <= |window|
    ensures |r| == HostLength(lay)
  {
    seq(HostLength(lay), i requires 0 <= i < HostLength(lay) => FrameFloat(window, lay, i))
  }

  /** Float `j` of region (c, s) of a frame is float `j` of channel `c` of the profile in slot `s`. */
  lemma FrameAt(window: seq<Profile>, lay: Layout, c: nat, s: nat, j: nat)
    requires Packed(lay) && lay.profilesPerFrame <= |window|
    requires c < lay.channels && s < lay.profilesPerFrame && j < RegionLength(lay)
    ensures HostOffset(lay, c, s) + j < HostLength(lay)
    ensures Frame(window, lay)[HostOffset(lay, c, s) + j] == ChannelData(window[|window| - lay.profilesPerFrame + s], lay, c)[j]
  {
    LocateOffset(lay, c, s, j);
  }

  /** Region (c, slot) of a frame holds channel `c` of `window[|window| - profiles + slot]`. */
  lemma FrameRegion(window: seq<Profile>, lay: Layout, c: nat, slot: nat)
    requires Packed(lay) && lay.profilesPerFrame <= |window|
    requires slot < lay.profilesPerFrame && c < lay.channels
    ensures HostOffset(lay, c, slot) + RegionLength(lay) <= HostLength(lay)
    ensures Frame(window, lay)[HostOffset(lay, c, slot)..HostOffset(lay, c, slot) + RegionLength(lay)]
         == ChannelData(window[|window| - lay.profilesPerFrame + slot], lay, c)
  {
    var off := HostOffset(lay, c, slot);
    var r := Frame(window, lay);
    var cd := ChannelData(window[|window| - lay.profilesPerFrame + slot], lay, c);
    RegionFits(lay, c, slot);
    forall j | 0 <= j < |cd|
      ensures r[off + j] == cd[j]
    {
      FrameAt(window, lay, c, slot, j);
    }
    SliceFromPoints(r, off, cd);
  }

  /**
   * Round trip: reading region (c, profiles-1-k) of a frame gives back
   * channel `c` of the k-th newest profile, so the last `profiles` profiles
   * sit in arrival order, the newest in the last slot.
   */
  lemma FrameRoundTrip(window: seq<Profile>, lay: Layout, k: nat, c: nat)
    requires Packed(lay) && lay.profilesPerFrame <= |window|
    requires k < lay.profilesPerFrame && c < lay.channels
    ensures HostOffset(lay, c, lay.profilesPerFrame - 1 - k) + RegionLength(lay) <= HostLength(lay)
    ensures Frame(window, lay)
              [HostOffset(lay, c, lay.profilesPerFrame - 1 - k)..HostOffset(lay, c, lay.profilesPerFrame - 1 - k) + RegionLength(lay)]
         == ChannelData(window[|window| - 1 - k], lay, c)
  {
    FrameRegion(window, lay, c, lay.profilesPerFrame - 1 - k);
  }

  /** Two sequences that agree float by float are equal. */
  lemma EqualFromPoints(r1: seq<real>, r2: seq<real>)
    requires |r1| == |r2|
    requires forall i | 0 <= i < |r1| :: r1[i] == r2[i]
    ensures r1 == r2
  {
  }

  /** Float `j` of region (c, s) of a host array `r`, or 0 if that lies past its end. */
  function RegionFloat(r: seq<real>, lay: Layout, c: nat, s: nat, j: nat): real {
    var i := HostOffset(lay, c, s) + j;
    if i < |r| then r[i] else 0.0
  }

  /** Every region (c, s) of `r` holds channel `c` of the profile the window puts in slot `s`. */
  predicate HoldsWindow(r: seq<real>, window: seq<Profile>, lay: Layout)
    requires lay.profilesPerFrame <= |window|
  {
    forall c: nat, s: nat, j: nat | c < lay.channels && s < lay.profilesPerFrame && j < RegionLength(lay)
      :: RegionFloat(r, lay, c, s, j) == ChannelData(window[|window| - lay.profilesPerFrame + s], lay, c)[j]
  }

  /** The staging loop fills every region from the window. */
  lemma StagedHoldsWindow(a: seq<real>, window: seq<Profile>, lay: Layout)
    requires Fits(lay, |a|) && lay.profilesPerFrame <= |window|
    ensures HoldsWindow(StageWindow(a, window, lay, lay.profilesPerFrame), window, lay)
  {
    var r := StageWindow(a, window, lay, lay.profilesPerFrame);
    forall c: nat, s: nat, j: nat | c < lay.channels && s < lay.profilesPerFrame && j < RegionLength(lay)
      ensures RegionFloat(r, lay, c, s, j) == ChannelData(window[|window| - lay.profilesPerFrame + s], lay, c)[j]
    {
      StagedAt(a, window, lay, c, s, j);
    }
  }

  /** An array whose every region holds the window starts with the frame: the regions tile it. */
  lemma FrameFromRegions(r: seq<real>, window: seq<Profile>, lay: Layout)
    requires Packed(lay) && lay.profilesPerFrame <= |window| && HostLength(lay) <= |r|
    requires HoldsWindow(r, window, lay)
    ensures r[..HostLength(lay)] == Frame(window, lay)
  {
    var n, f := HostLength(lay), Frame(window, lay);
    forall i | 0 <= i < n
      ensures r[i] == f[i]
    {
      var l := Locate(lay, i);
      FrameAt(window, lay, l.0, l.1, l.2);
      assert RegionFloat(r, lay, l.0, l.1, l.2) == ChannelData(window[|window| - lay.profilesPerFrame + l.1], lay, l.0)[l.2];
    }
    SliceFromPoints(r, 0, f);
  }

  /** Staging leaves the floats past `HostLength` alone. */
  lemma StagedTail(a: seq<real>, window: seq<Profile>, lay: Layout)
    requires Fits(lay, |a|) && lay.profilesPerFrame <= |window|
    ensures StageWindow(a, window, lay, lay.profilesPerFrame)[HostLength(lay)..] == a[HostLength(lay)..]
  {
    var n, r := HostLength(lay), StageWindow(a, window, lay, lay.profilesPerFrame);
    forall i | n <= i < |a|
      ensures r[i] == a[i]
    {
      StageWindowBeyond(a, window, lay, lay.profilesPerFrame, i);
    }
    EqualFromPoints(r[n..], a[n..]);
  }

  /**
   * The staging loop builds the frame: the first `HostLength` floats of the
   * host array are `Frame(window)`, whatever the array held before, and the
   * floats after them are untouched.
   */
  lemma StagedIsFrame(a: seq<real>, window: seq<Profile>, lay: Layout)
    requires Fits(lay, |a|) && lay.profilesPerFrame <= |window|
    ensures StageWindow(a, window, lay, lay.profilesPerFrame) == Frame(window, lay) + a[HostLength(lay)..]
  {
    var n, r := HostLength(lay), StageWindow(a, window, lay, lay.profilesPerFrame);
    StagedHoldsWindow(a, window, lay);
    FrameFromRegions(r, window, lay);
    StagedTail(a, window, lay);
    assert r == r[..n] + r[n..];
  }

  /** The layout `upload_samples` stages with once its allocation step has succeeded: `allocated == samples * profiles`. */
  function PackedLayout(channels: nat, samples: nat, profiles: nat): (lay: Layout)
    requires profiles >= 1
    ensures Packed(lay)
    ensures lay.channels == channels && lay.samplesPerProfile == samples && lay.profilesPerFrame == profiles
    ensures lay.allocatedSamples == samples * profiles
    ensures HostLength(lay) == channels * (samples * profiles) * 2
  {
    TimesIsProduct(profiles, samples);
    TimesIsProduct(channels, samples * profiles);
    Layout(channels, samples, profiles, samples * profiles)
  }

  /**
   * The floats handed to the device for a frame: the `[samples * profiles, channels]`
   * complex array over the host buffer, which is `Frame(window)` once
   * staged, and empty when no profile is staged at all.
   */
  function DeviceFrame(window: seq<Profile>, channels: nat, samples: nat, profiles: int): (r: seq<real>)
    requires profiles <= |window|
    ensures profiles >= 1 ==> |r| == channels * (samples * profiles) * 2
    ensures profiles < 1 ==> r == []
  {
    if profiles < 1 then [] else Frame(window, PackedLayout(channels, samples, profiles))
  }

  /** `n` floats of 0: a freshly allocated host array. */
  function Zeros(n: nat): (r: seq<real>)
    ensures |r| == n && forall i | 0 <= i < n :: r[i] == 0.0
  {
    seq(n, _ => 0.0)
  }

  /**
   * How far the staging loop gets: among the `limit` newest profiles of `w`,
   * counted from the newest, the number that carry a sample array before the
   * first one that does not.
   */
  function SampledRun(w: seq<Profile>, limit: nat): (r: nat)
    requires limit <= |w|
    ensures r <= limit
    ensures r < limit ==> w[|w| - 1 - r].payload.OtherPayload?
    decreases limit
  {
    if limit == 0 then 0
    else
      var r := SampledRun(w, limit - 1);
      if r == limit - 1 && w[|w| - limit].payload.Samples? then limit else r
  }

  /** The profiles of the run all carry a sample array. */
  lemma {:induction false} SampledRunSampled(w: seq<Profile>, limit: nat, i: nat)
    requires limit <= |w| && |w| - SampledRun(w, limit) <= i < |w|
    ensures w[i].payload.Samples?
    decreases limit
  {
    var r := SampledRun(w, limit - 1);
    if i >= |w| - r {
      SampledRunSampled(w, limit - 1, i);
    }
  }

  /** Once a profile without samples is met, the run stops there whatever the limit. */
  lemma {:induction false} SampledRunStops(w: seq<Profile>, k: nat, limit: nat)
    requires k < limit <= |w|
    requires SampledRun(w, k) == k && w[|w| - 1 - k].payload.OtherPayload?
    ensures SampledRun(w, limit) == k
    decreases limit
  {
    if limit > k + 1 {
      SampledRunStops(w, k, limit - 1);
    }
  }

  /** A profile with samples extends the run by one. */
  lemma SampledRunGrows(w: seq<Profile>, k: nat)
    requires k < |w| && SampledRun(w, k) == k && w[|w| - 1 - k].payload.Samples?
    ensures SampledRun(w, k + 1) == k + 1
  {
  }

  /** One more staged profile: the `k`-th newest goes into slot `profilesPerFrame - 1 - k`. */
  lemma StageWindowNext(a: seq<real>, window: seq<Profile>, lay: Layout, k: nat)
    requires Fits(lay, |a|) && k < lay.profilesPerFrame && k < |window|
    ensures StageWindow(a, window, lay, k + 1)
         == StageProfile(StageWindow(a, window, lay, k), window[|window| - 1 - k], lay, lay.profilesPerFrame - 1 - k, lay.channels)
  {
  }
}
