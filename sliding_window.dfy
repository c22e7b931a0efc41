/**
 * The sliding window of the SENSE stage (gadgets/cgsense/GPUCGGadget.cpp,
 * `process`): accepted profiles are appended at the tail of `buffer_`; once
 * it holds `profiles_per_frame_` of them a frame is reconstructed and
 * `profiles_per_frame_ - shared_profiles_` profiles are dequeued from the
 * head, so that consecutive frames share `shared_profiles_` profiles.
 */
module SlidingWindow {
  import opened Types
  import opened DivMod

  /** How many head profiles the slide loop dequeues: `profiles - shared` turns, none when that is not positive. */
  function SlideCount(profiles: int, shared: int): (r: nat)
    ensures r >= profiles - shared
    ensures profiles - shared > 0 ==> r == profiles - shared
    ensures profiles - shared <= 0 ==> r == 0
  {
    if profiles - shared > 0 then profiles - shared else 0
  }

  /** A frame is reconstructed once the window holds at least `profiles` profiles. */
  predicate Fires<T>(w: seq<T>, profiles: int) {
    |w| >= profiles
  }

  /**
   * Dequeuing `k` profiles from the head of the window; `None` when the
   * window runs dry first, where the blocking dequeue never returns.
   */
  function Slide<T>(w: seq<T>, k: nat): (r: Option<seq<T>>)
    ensures r.Some? <==> k <= |w|
    ensures r.Some? ==> |r.value| == |w| - k && r.value == w[|w| - |r.value|..]
  {
    if k <= |w| then Some(w[k..]) else None
  }

  /**
   * The window after one accepted profile `x` whose frame, if one fires,
   * succeeds: `x` is appended, and when the window is full the slide removes
   * `SlideCount` profiles from its head.
   */
  function WindowStep<T>(w: seq<T>, x: T, profiles: int, shared: int): Option<seq<T>> {
    var full := w + [x];
    if Fires(full, profiles) then Slide(full, SlideCount(profiles, shared)) else Some(full)
  }

  /** The survivors of a step are the newest profiles, ending with the one just accepted. */
  lemma WindowStepSuffix<T>(w: seq<T>, x: T, profiles: int, shared: int)
    requires WindowStep(w, x, profiles, shared).Some?
    ensures var r := WindowStep(w, x, profiles, shared).value;
      r == (w + [x])[|w| + 1 - |r|..] &&
      |r| == if Fires(w + [x], profiles) then |w| + 1 - SlideCount(profiles, shared) else |w| + 1
  {
  }

  /** A step blocks exactly when a frame fires and the slide asks for more profiles than the window holds. */
  lemma WindowStepBlocks<T>(w: seq<T>, x: T, profiles: int, shared: int)
    ensures WindowStep(w, x, profiles, shared).None?
        <==> |w| + 1 >= profiles && profiles - shared > |w| + 1
  {
  }

  /**
   * With the configuration the stage establishes (`0 <= shared < profiles`)
   * a window that is not yet full never blocks and stays below `profiles`:
   * a frame fires exactly when the window reaches `profiles`, and the slide
   * leaves the `shared` newest.
   */
  lemma WindowStepNormal<T>(w: seq<T>, x: T, profiles: int, shared: int)
    requires 0 <= shared < profiles && |w| < profiles
    ensures WindowStep(w, x, profiles, shared).Some?
    ensures |WindowStep(w, x, profiles, shared).value| < profiles
    ensures Fires(w + [x], profiles) <==> |w| + 1 == profiles
    ensures Fires(w + [x], profiles) ==> |WindowStep(w, x, profiles, shared).value| == shared
  {
  }

  /** `WindowStep` for a configured stage, where it cannot block. */
  function Advance<T>(w: seq<T>, x: T, profiles: int, shared: int): (r: seq<T>)
    requires 0 <= shared < profiles && |w| < profiles
    ensures WindowStep(w, x, profiles, shared) == Some(r)
  {
    WindowStepNormal(w, x, profiles, shared);
    WindowStep(w, x, profiles, shared).value
  }

  /** The window after the profiles `xs` were accepted in order, starting empty, every frame succeeding. */
  function Feed<T>(xs: seq<T>, profiles: int, shared: int): (r: seq<T>)
    requires 0 <= shared < profiles
    ensures |r| < profiles
    decreases |xs|
  {
    if |xs| == 0 then []
    else
      var w := Feed(xs[..|xs| - 1], profiles, shared);
      WindowStepNormal(w, xs[|xs| - 1], profiles, shared);
      Advance(w, xs[|xs| - 1], profiles, shared)
  }

  /** How many frames fired while `xs` were accepted. */
  function FeedFrames<T>(xs: seq<T>, profiles: int, shared: int): nat
    requires 0 <= shared < profiles
    decreases |xs|
  {
    if |xs| == 0 then 0
    else
      var init := xs[..|xs| - 1];
      FeedFrames(init, profiles, shared) + if Fires(Feed(init, profiles, shared) + [xs[|xs| - 1]], profiles) then 1 else 0
  }

  /**
   * Length of the window after `n` profiles: it fills up to `profiles - 1`,
   * then cycles through `shared .. profiles - 1`, and a frame fires at
   * profile `profiles`, then every `profiles - shared` profiles.
   */
  lemma {:induction false} FeedCounts<T>(xs: seq<T>, profiles: int, shared: int)
    requires 0 <= shared < profiles
    ensures |Feed(xs, profiles, shared)|
         == if |xs| < profiles then |xs| else shared + (|xs| - profiles) % (profiles - shared)
    ensures FeedFrames(xs, profiles, shared)
         == if |xs| < profiles then 0 else 1 + (|xs| - profiles) / (profiles - shared)
    decreases |xs|
  {
    if |xs| > 0 {
      var n, d := |xs|, profiles - shared;
      var init := xs[..n - 1];
      FeedCounts(init, profiles, shared);
      WindowStepNormal(Feed(init, profiles, shared), xs[n - 1], profiles, shared);
      if n - 1 < profiles {
        if n == profiles {
          DivModUnique(0, d, 0, 0);
        }
      } else {
        ModSucc(n - 1 - profiles, d);
      }
    }
  }

  /** The window is always the newest profiles accepted, in arrival order. */
  lemma {:induction false} FeedSuffix<T>(xs: seq<T>, profiles: int, shared: int)
    requires 0 <= shared < profiles
    ensures |Feed(xs, profiles, shared)| <= |xs|
    ensures Feed(xs, profiles, shared) == xs[|xs| - |Feed(xs, profiles, shared)|..]
    decreases |xs|
  {
    if |xs| > 0 {
      var n, x := |xs|, xs[|xs| - 1];
      var init, w := xs[..n - 1], Feed(xs[..n - 1], profiles, shared);
      FeedSuffix(init, profiles, shared);
      WindowStepSuffix(w, x, profiles, shared);
      var r := Feed(xs, profiles, shared);
      assert w + [x] == xs[n - 1 - |w|..] by {
        assert w == xs[n - 1 - |w|..n - 1];
        assert xs[n - 1 - |w|..] == xs[n - 1 - |w|..n - 1] + [x];
      }
      assert r == (w + [x])[|w| + 1 - |r|..];
      assert (w + [x])[|w| + 1 - |r|..] == xs[n - |r|..];
    }
  }

  /**
   * Every profile accepted is either still in the window or was dequeued by
   * a slide: the frames fired times `profiles - shared` (how far
   * `current_profile_offset_` advanced) plus the window's length is the
   * number of profiles accepted.
   */
  lemma Accounting<T>(xs: seq<T>, profiles: int, shared: int)
    requires 0 <= shared < profiles
    ensures FeedFrames(xs, profiles, shared) * (profiles - shared) + |Feed(xs, profiles, shared)| == |xs|
  {
    FeedCounts(xs, profiles, shared);
    if |xs| >= profiles {
      CycleSum(|xs|, profiles, shared);
    }
  }
}
