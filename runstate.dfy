/** The acquisition run state the grab loop keeps in the parameter store
    (address 0): the acquire flag, the two frame counters, and the auto-stop
    rule of the image modes. */
module RunState {
  import opened Params

  /** `setIntegerParam(addr, p, v)`. */
  function Set(s: Store, addr: int, p: Param, v: int): (t: Store)
    ensures Get(t, addr, p) == v
  {
    s[(addr, p) := v]
  }

  /** The loop wakes on the start event: the per-run counter restarts at 0 and
      the acquire flag is set. */
  function Started(s: Store): (t: Store)
    ensures Get(t, 0, NumImagesCounter) == 0 && Get(t, 0, Acquire) == 1
  {
    Set(Set(s, 0, NumImagesCounter, 0), 0, Acquire, 1)
  }

  /** A frame was grabbed: both counters advance by one. */
  function CountFrame(s: Store): (t: Store)
    ensures Get(t, 0, ArrayCounter) == Get(s, 0, ArrayCounter) + 1
    ensures Get(t, 0, NumImagesCounter) == Get(s, 0, NumImagesCounter) + 1
  {
    Set(Set(s, 0, ArrayCounter, Get(s, 0, ArrayCounter) + 1), 0, NumImagesCounter, Get(s, 0, NumImagesCounter) + 1)
  }

  /** The image modes' stop rule, judged on the counter after the frame was counted. */
  predicate AutoStop(s: Store) {
    var mode := Get(s, 0, ImageMode);
    mode == ImageSingle || (mode == ImageMultiple && Get(s, 0, NumImagesCounter) >= Get(s, 0, NumImages))
  }

  /** The store after a successful frame: counted, and the acquire flag
      cleared when the image mode says the run is over. */
  function AfterFrame(s: Store): (t: Store)
    ensures Get(t, 0, ArrayCounter) == Get(s, 0, ArrayCounter) + 1
    ensures Get(t, 0, NumImagesCounter) == Get(s, 0, NumImagesCounter) + 1
    ensures Get(t, 0, Acquire) == (if AutoStop(CountFrame(s)) then 0 else Get(s, 0, Acquire))
  {
    var t := CountFrame(s);
    if AutoStop(t) then Set(t, 0, Acquire, 0) else t
  }

  /** Each of these updates touches only the entries it names: every other
      entry of the store, at any address, reads as before. */
  lemma OnlyNamedEntriesChange(s: Store, addr: int, p: Param, v: int, a: int, q: Param)
    ensures (a, q) != (addr, p) ==> Get(Set(s, addr, p, v), a, q) == Get(s, a, q)
    ensures (a, q) != (0, NumImagesCounter) && (a, q) != (0, Acquire) ==> Get(Started(s), a, q) == Get(s, a, q)
    ensures (a, q) != (0, ArrayCounter) && (a, q) != (0, NumImagesCounter) ==> Get(CountFrame(s), a, q) == Get(s, a, q)
    ensures (a, q) != (0, ArrayCounter) && (a, q) != (0, NumImagesCounter) && (a, q) != (0, Acquire) ==>
      Get(AfterFrame(s), a, q) == Get(s, a, q)
  {
  }

  /** Single mode ends the run after every frame; continuous mode never ends it;
      multiple mode ends it once the counter reaches the requested number. */
  lemma StopRuleByMode(s: Store)
    ensures Get(s, 0, ImageMode) == ImageSingle ==> Get(AfterFrame(s), 0, Acquire) == 0
    ensures Get(s, 0, ImageMode) == ImageContinuous ==> Get(AfterFrame(s), 0, Acquire) == Get(s, 0, Acquire)
    ensures Get(s, 0, ImageMode) == ImageMultiple ==>
      (Get(AfterFrame(s), 0, Acquire) == 0 <==> Get(s, 0, NumImagesCounter) + 1 >= Get(s, 0, NumImages) || Get(s, 0, Acquire) == 0)
  {
  }

  /** `k` successful frames in a row. */
  function Frames(s: Store, k: nat): Store
    decreases k
  {
    if k == 0 then s else AfterFrame(Frames(s, k - 1))
  }

  /** Over `k` frames both counters advance by exactly `k`, and the mode and
      the requested number of images stay as they were. */
  lemma {:induction false} FramesCount(s: Store, k: nat)
    ensures Get(Frames(s, k), 0, ArrayCounter) == Get(s, 0, ArrayCounter) + k
    ensures Get(Frames(s, k), 0, NumImagesCounter) == Get(s, 0, NumImagesCounter) + k
    ensures Get(Frames(s, k), 0, ImageMode) == Get(s, 0, ImageMode)
    ensures Get(Frames(s, k), 0, NumImages) == Get(s, 0, NumImages)
    decreases k
  {
    if k > 0 {
      FramesCount(s, k - 1);
    }
  }

  /** A multiple-image run of `n` frames: after starting, the acquire flag
      stays set for the first `n - 1` frames and is cleared by the `n`-th. */
  lemma {:induction false} MultipleRunLength(s: Store, n: int, k: nat)
    requires Get(s, 0, ImageMode) == ImageMultiple && Get(s, 0, NumImages) == n
    requires 1 <= n && k <= n
    ensures Get(Frames(Started(s), k), 0, Acquire) == (if k == n then 0 else 1)
    decreases k
  {
    if k > 0 {
      MultipleRunLength(s, n, k - 1);
      FramesCount(Started(s), k - 1);
    }
  }

  /** In continuous mode no number of frames ends the run. */
  lemma {:induction false} ContinuousRunNeverStops(s: Store, k: nat)
    requires Get(s, 0, ImageMode) == ImageContinuous
    ensures Get(Frames(Started(s), k), 0, Acquire) == 1
    decreases k
  {
    if k > 0 {
      ContinuousRunNeverStops(s, k - 1);
      FramesCount(Started(s), k - 1);
    }
  }
}
