/** The driver object: its parameter store, the start and stop events of the
    grab thread (as flags), the commands it sends to the camera's stream,
    its `pRaw` lease on pool arrays and the array last filled. The grab
    thread's loop is split at the points where it waits, and each piece is a
    method, so a run of the driver is a sequence of method calls. */
module Driver {
  import opened Options
  import opened CInt
  import opened CamErrors
  import opened Params
  import opened RunState
  import opened PixelLayouts
  import opened FrameFill
  import opened Features
  import opened Buffers

  /** What the driver asks of the camera's image stream. */
  datatype Command = StartStream | StopStream

  /** Where the grab thread is in its loop: at the top, parked on the start
      event, or about to grab a frame. */
  datatype Phase = AtTop | WaitingForStart | ReadyToGrab

  /** What the camera library and the array pool answer during one `grabImage`. */
  datatype FrameInput = FrameInput(
    acquireErr: int,                  // code of `AcquireImageEx`
    format: int, mode: int, colorCode: int,
    f7SizeX: int, f7SizeY: int,       // Format 7 size (`unsigned short`)
    frameSizeX: int, frameSizeY: int, // fixed-format frame size (`unsigned long`)
    raw: seq<byte>,                   // the raw frame
    poolHasRoom: bool,                // whether `alloc` returns an array
    rgbErr: int)                      // code of `getRGB`

  /** The frame's size as `grabImage` holds it, in `unsigned short`: a
      fixed-format size is truncated to 16 bits. */
  function FrameSize(input: FrameInput): (xy: (int, int))
    ensures 0 <= xy.0 < 0x1_0000 && 0 <= xy.1 < 0x1_0000
    ensures input.format != 7 && 0 <= input.frameSizeX < 0x1_0000 ==> xy.0 == input.frameSizeX
    ensures input.format != 7 && 0 <= input.frameSizeY < 0x1_0000 ==> xy.1 == input.frameSizeY
  {
    if input.format == 7 then (UShort(input.f7SizeX), UShort(input.f7SizeY))
    else (UShort(input.frameSizeX), UShort(input.frameSizeY))
  }

  function Layout(input: FrameInput): Option<PixelLayout> {
    FrameLayout(input.format, input.mode, input.colorCode)
  }

  /** The store entries `grabImage` sets once the layout is known: size,
      element type and colour mode. */
  function Published(s: Store, p: PixelLayout, sizeX: int, sizeY: int): (t: Store)
    ensures Get(t, 0, ArraySizeX) == sizeX && Get(t, 0, ArraySizeY) == sizeY
    ensures Get(t, 0, DataType) == DataTypeCode(p.dataType)
    ensures Get(t, 0, ColorMode) == ChooseColorMode(p.numColors, Get(s, 0, ColorMode))
    ensures Get(t, 0, ArrayCounter) == Get(s, 0, ArrayCounter) && Get(t, 0, NumImagesCounter) == Get(s, 0, NumImagesCounter)
    ensures Get(t, 0, Acquire) == Get(s, 0, Acquire) && Get(t, 0, ArrayCallbacks) == Get(s, 0, ArrayCallbacks)
    ensures Get(t, 0, ImageMode) == Get(s, 0, ImageMode) && Get(t, 0, NumImages) == Get(s, 0, NumImages)
  {
    var t := Set(Set(s, 0, ArraySizeX, sizeX), 0, ArraySizeY, sizeY);
    Set(Set(t, 0, DataType, DataTypeCode(p.dataType)), 0, ColorMode, ChooseColorMode(p.numColors, Get(s, 0, ColorMode)))
  }

  /** The byte size of the array the pool allocates for a frame: one
      element of the layout's type for each entry the array's dimensions
      span. */
  function ArrayBytes(p: PixelLayout, sizeX: int, sizeY: int): (n: nat)
    requires 0 <= sizeX && 0 <= sizeY && WellFormed(p)
    ensures n == Product(ArrayDims(p.numColors, sizeX, sizeY)) * ElementBytes(p.dataType)
  {
    var pixels: nat := sizeX * sizeY;
    var samples: nat := p.numColors * pixels;
    ArrayDimsCount(p.numColors, sizeX, sizeY);
    assert p.numColors * sizeX * sizeY == samples;
    samples * ElementBytes(p.dataType)
  }

  /** A zero-filled block, as a freshly allocated array holds. */
  function Zeros(n: nat): (z: seq<byte>)
    ensures |z| == n && forall i :: 0 <= i < n ==> z[i] == 0
  {
    seq(n, _ => 0)
  }

  /** The camera gave a frame and its layout is in the table. */
  predicate Decoded(input: FrameInput) {
    !Fails(input.acquireErr) && Layout(input).Some?
  }

  /** The store after `grabImage`: untouched when the frame is refused,
      size, type and colour mode published otherwise, and DetectorStatus
      Aborting when the pool has no array, Readout when it has one. */
  function AfterGrab(s: Store, input: FrameInput): (t: Store)
    ensures Get(t, 0, ArrayCounter) == Get(s, 0, ArrayCounter) && Get(t, 0, NumImagesCounter) == Get(s, 0, NumImagesCounter)
    ensures Get(t, 0, Acquire) == Get(s, 0, Acquire) && Get(t, 0, ArrayCallbacks) == Get(s, 0, ArrayCallbacks)
    ensures Get(t, 0, ImageMode) == Get(s, 0, ImageMode) && Get(t, 0, NumImages) == Get(s, 0, NumImages)
  {
    if !Decoded(input) then s
    else
      var size := FrameSize(input);
      var t := Published(s, Layout(input).value, size.0, size.1);
      Set(t, 0, DetectorStatus, if input.poolHasRoom then StatusReadout else StatusAborting)
  }

  /** Whether `grabImage` delivers a frame: the camera gave one, its layout
      is in the table, the pool had an array and, for a colour frame, the
      colour conversion worked. */
  predicate GrabSucceeds(input: FrameInput) {
    && Decoded(input)
    && input.poolHasRoom
    && (Layout(input).value.numColors == 3 ==> !Fails(input.rgbErr))
  }

  /** The store after one pass of the loop from the grab on: Waiting, the
      grab, and then either Aborting or the frame counted. */
  function AfterCycle(s: Store, input: FrameInput): Store {
    var g := AfterGrab(Set(s, 0, DetectorStatus, StatusWaiting), input);
    if GrabSucceeds(input) then AfterFrame(g) else Set(g, 0, DetectorStatus, StatusAborting)
  }

  /** The array lease after one pass: the grab allocates one when the frame
      is decoded and the pool has room, and both tails release it and clear
      the pointer. */
  function CycleLease(l: Lease, input: FrameInput): Lease {
    ReleaseAndClear(GrabLease(l, input))
  }

  /** The lease after `grabImage`: one array taken when the frame is decoded
      and the pool has room, the pointer cleared when the pool has none. */
  function GrabLease(l: Lease, input: FrameInput): Lease {
    if !Decoded(input) then l else if input.poolHasRoom then Allocate(l) else AllocationFailed(l)
  }

  /** One pass keeps the lease sound and leaves the pointer clear; the only
      array it releases is the one it allocated, so none is released twice. */
  lemma CycleLeaseSound(l: Lease, input: FrameInput)
    requires Sound(l) && l.held.None?
    ensures var r := CycleLease(l, input);
      && Sound(r) && r.held.None?
      && r.released == l.released + (if Decoded(input) && input.poolHasRoom then [l.next] else [])
  {
    StepsKeepSound(l);
    StepsKeepSound(GrabLease(l, input));
  }

  /** The command list, with a stop appended when `stop` holds. */
  function StopIf(c: seq<Command>, stop: bool): seq<Command> {
    if stop then c + [StopStream] else c
  }

  /** Whether `grabImage` stops the camera itself: the pool has no array. */
  predicate GrabStops(input: FrameInput) {
    Decoded(input) && !input.poolHasRoom
  }

  /** The command list after one pass: a stop when `grabImage` finds no
      array, a stop from the failure tail, and a stop when a successful
      frame ends the run. */
  function CycleCommands(c: seq<Command>, s: Store, input: FrameInput): seq<Command> {
    StopIf(StopIf(c, GrabStops(input)), !GrabSucceeds(input) || StopsRun(s, input))
  }

  /** A pass only appends stops: a failed one ends with a stop (two when the
      pool had no array), and a successful one issues a single stop exactly
      when it ends the run. */
  lemma CycleCommandsShape(c: seq<Command>, s: Store, input: FrameInput)
    ensures var r := CycleCommands(c, s, input);
      && |c| <= |r| <= |c| + 2 && r[..|c|] == c
      && (forall i :: |c| <= i < |r| ==> r[i] == StopStream)
      && (!GrabSucceeds(input) ==> |r| > |c| && r[|r| - 1] == StopStream)
      && (GrabSucceeds(input) ==> (|r| == |c| + 1 <==> StopsRun(s, input)) && (|r| == |c| <==> !StopsRun(s, input)))
  {
    var g := StopIf(c, GrabStops(input));
    assert g[..|c|] == c;
    var r := CycleCommands(c, s, input);
    assert r[..|g|] == g;
    assert r[..|c|] == g[..|c|];
  }

  /** The arrays handed to the callbacks after one pass: the new array
      counter, when the grab succeeded and callbacks are enabled. */
  function CycleDelivered(d: seq<int>, s: Store, input: FrameInput): seq<int> {
    if GrabSucceeds(input) && Get(s, 0, ArrayCallbacks) != 0 then d + [Get(s, 0, ArrayCounter) + 1] else d
  }

  /** Whether a successful pass ends the run. */
  predicate StopsRun(s: Store, input: FrameInput) {
    AutoStop(CountFrame(AfterGrab(Set(s, 0, DetectorStatus, StatusWaiting), input)))
  }

  /** What one pass does to the run state: a failed grab reports Aborting
      and leaves both counters and Acquire as they were; a successful one
      advances both counters by one, publishes the frame size and clears
      Acquire exactly when the image mode ends the run. */
  lemma CycleEffects(s: Store, input: FrameInput)
    ensures var t := AfterCycle(s, input);
      Get(t, 0, DetectorStatus) == (if GrabSucceeds(input) then StatusReadout else StatusAborting)
    ensures var t := AfterCycle(s, input); !GrabSucceeds(input) ==>
      && Get(t, 0, ArrayCounter) == Get(s, 0, ArrayCounter)
      && Get(t, 0, NumImagesCounter) == Get(s, 0, NumImagesCounter)
      && Get(t, 0, Acquire) == Get(s, 0, Acquire)
    ensures var t := AfterCycle(s, input); GrabSucceeds(input) ==>
      && Get(t, 0, ArrayCounter) == Get(s, 0, ArrayCounter) + 1
      && Get(t, 0, NumImagesCounter) == Get(s, 0, NumImagesCounter) + 1
      && Get(t, 0, Acquire) == (if StopsRun(s, input) then 0 else Get(s, 0, Acquire))
      && Get(t, 0, ArraySizeX) == FrameSize(input).0 && Get(t, 0, ArraySizeY) == FrameSize(input).1
    ensures StopsRun(s, input) <==>
      || Get(s, 0, ImageMode) == ImageSingle
      || (Get(s, 0, ImageMode) == ImageMultiple && Get(s, 0, NumImagesCounter) + 1 >= Get(s, 0, NumImages))
  {
    var w := Set(s, 0, DetectorStatus, StatusWaiting);
    var g := AfterGrab(w, input);
    assert Get(g, 0, ImageMode) == Get(s, 0, ImageMode) && Get(g, 0, NumImages) == Get(s, 0, NumImages);
    assert Get(g, 0, NumImagesCounter) == Get(s, 0, NumImagesCounter);
    assert Get(g, 0, ArrayCounter) == Get(s, 0, ArrayCounter) && Get(g, 0, Acquire) == Get(s, 0, Acquire);
  }

  /** The entries the constructor sets before reading the features: 8-bit
      data, continuous mode, 100 images. */
  const InitialParams: Store :=
    map[(0, DataType) := DataTypeCode(NDUInt8), (0, ImageMode) := ImageContinuous, (0, NumImages) := 100]

  class FirewireWinDCAM {
    const hostBigEndian: bool
    var params: Store
    var startEvent: bool
    var stopEvent: bool
    var phase: Phase
    var externalStopCmd: bool   // the grab thread's local flag of the same name
    var commands: seq<Command>
    var lease: Lease
    var frame: array<byte>      // the data of the array last allocated
    var frameDims: seq<int>
    var frameColorMode: int     // the array's ColorMode attribute
    var frameUniqueId: int
    var delivered: seq<int>     // unique ids of the arrays passed to the array callbacks

    /** The parameters the constructor sets, then every feature read from
        what the camera reports (`controls`), and the events as the grab
        thread sees them once it has started: start empty, stop cleared. A
        lease starting as `NoLease` is sound (`Buffers.NoLeaseSound`). */
    constructor(hostBigEndian: bool, controls: seq<Control>)
      requires |controls| == FeatureCount
      ensures this.hostBigEndian == hostBigEndian
      ensures Get(params, 0, DataType) == DataTypeCode(NDUInt8)
      ensures Get(params, 0, ImageMode) == ImageContinuous && Get(params, 0, NumImages) == 100
      ensures forall a: int, p: Param :: 0 <= a < FeatureCount && IsFeatureParam(p) ==>
        Get(params, a, p) == FeatureEntry(controls[a], FeatureIndex[a], p)
      ensures forall a: int, p: Param :: !(0 <= a < FeatureCount && IsFeatureParam(p)) ==>
        Get(params, a, p) == Get(InitialParams, a, p)
      ensures !startEvent && !stopEvent && phase == AtTop && !externalStopCmd
      ensures commands == [] && delivered == [] && lease == NoLease
    {
      this.hostBigEndian := hostBigEndian;
      var refreshed, refreshStatus := Refresh(InitialParams, controls);
      params := refreshed;
      startEvent := false;
      stopEvent := false;
      phase := AtTop;
      externalStopCmd := false;
      commands := [];
      lease := NoLease;
      frame := new byte[0];
      frameDims := [];
      frameColorMode := ColorModeMono;
      frameUniqueId := 0;
      delivered := [];
    }

    // -------------------------------------------------------------------
    // The user side.

    /** `startCapture`: start the stream; on failure clear Acquire and stay
        idle, on success signal the grab thread. */
    method StartCapture(startErr: int) returns (status: AsynStatus)
      modifies this`params, this`commands, this`startEvent
      ensures commands == old(commands) + [StartStream]
      ensures status == Translate(startErr).status
      ensures status == AsynError ==> params == Set(old(params), 0, Acquire, 0) && startEvent == old(startEvent)
      ensures status == AsynSuccess ==> params == old(params) && startEvent
    {
      commands := commands + [StartStream];
      status := Translate(startErr).status;
      if status == AsynError {
        params := Set(params, 0, Acquire, 0);
        return;
      }
      startEvent := true;
    }

    /** `stopCapture`: wait for the grab thread's stop event (here: take it
        if it is set, otherwise time out), then stop the stream whatever
        the wait gave; the status is the stream stop's. */
    method StopCapture(stopErr: int) returns (status: AsynStatus, timedOut: bool)
      modifies this`commands, this`stopEvent
      ensures !stopEvent && timedOut == !old(stopEvent)
      ensures commands == old(commands) + [StopStream]
      ensures status == Translate(stopErr).status
    {
      timedOut := !stopEvent;
      stopEvent := false;
      commands := commands + [StopStream];
      status := Translate(stopErr).status;
    }

    /** `writeInt32` for ADAcquire: store the value at the request's address
        (a negative one taken as 0); a non-zero value starts the camera only
        when the detector is idle, zero always stops it. The detector status
        is read, and a failed start clears Acquire, at address 0. */
    method WriteAcquire(addr: int, value: int, startErr: int, stopErr: int) returns (status: AsynStatus)
      modifies this`params, this`commands, this`startEvent, this`stopEvent
      ensures var stored := Set(old(params), if addr < 0 then 0 else addr, Acquire, value);
        value != 0 && Get(old(params), 0, DetectorStatus) == StatusIdle ==>
        commands == old(commands) + [StartStream] && status == Translate(startErr).status
        && params == (if status == AsynError then Set(stored, 0, Acquire, 0) else stored)
        && startEvent == (status == AsynSuccess || old(startEvent)) && stopEvent == old(stopEvent)
      ensures value != 0 && Get(old(params), 0, DetectorStatus) != StatusIdle ==>
        commands == old(commands) && status == AsynSuccess
        && params == Set(old(params), if addr < 0 then 0 else addr, Acquire, value)
        && startEvent == old(startEvent) && stopEvent == old(stopEvent)
      ensures value == 0 ==>
        commands == old(commands) + [StopStream] && status == Translate(stopErr).status
        && params == Set(old(params), if addr < 0 then 0 else addr, Acquire, 0) && !stopEvent && startEvent == old(startEvent)
    {
      var adstatus := Get(params, 0, DetectorStatus);
      params := Set(params, if addr < 0 then 0 else addr, Acquire, value);
      status := AsynSuccess;
      if value != 0 && adstatus == StatusIdle {
        status := StartCapture(startErr);
      } else if value == 0 {
        var timedOut;
        status, timedOut := StopCapture(stopErr);
      }
    }

    /** `writeInt32` for a parameter the driver only stores (image mode,
        number of images, array callbacks, colour mode); a negative address
        is taken as 0. */
    method WriteParam(addr: int, p: Param, value: int)
      requires p == ImageMode || p == NumImages || p == ArrayCallbacks || p == ColorMode
      modifies this`params
      ensures params == Set(old(params), if addr < 0 then 0 else addr, p, value)
    {
      params := Set(params, if addr < 0 then 0 else addr, p, value);
    }

    /** `getAllFeatures` over what the camera reports for each of the 22 features. */
    method GetAllFeatures(controls: seq<Control>) returns (status: AsynStatus)
      requires |controls| == FeatureCount
      modifies this`params
      ensures forall a: int, p: Param :: 0 <= a < FeatureCount && IsFeatureParam(p) ==>
        Get(params, a, p) == FeatureEntry(controls[a], FeatureIndex[a], p)
      ensures forall a: int, p: Param :: !(0 <= a < FeatureCount && IsFeatureParam(p)) ==>
        Get(params, a, p) == Get(old(params), a, p)
      ensures status == AsynSuccess
    {
      params, status := Refresh(params, controls);
    }

    /** `writeInt32` for a feature's mode: store it, then apply it. */
    method WriteFeatureMode(addr: int, value: int, controls: seq<Control>, modeErr: int) returns (status: AsynStatus)
      requires |controls| == FeatureCount
      modifies this`params
      ensures params == Set(old(params), if addr < 0 then 0 else addr, FeatMode, value)
      ensures status == SetFeatureMode(addr, controls, value, modeErr).status
    {
      params := Set(params, if addr < 0 then 0 else addr, FeatMode, value);
      status := SetFeatureMode(addr, controls, value, modeErr).status;
    }

    /** `writeInt32` for a feature's value: store it, switch the feature to
        manual if its stored mode is not, set the value and refresh every
        feature from what the camera then reports (`after`). */
    method WriteFeatureVal(addr: int, value: int, controls: seq<Control>, modeErr: int, setErr: int,
                           after: seq<Control>) returns (status: AsynStatus, request: ValueRequest)
      requires |controls| == FeatureCount && |after| == FeatureCount
      modifies this`params
      ensures var a0 := if addr < 0 then 0 else addr;
        request == Features.WriteFeatureValue(addr, controls, Get(Set(old(params), a0, FeatVal, value), a0, FeatMode), value, modeErr, setErr)
      ensures status == request.status
      ensures !request.refreshed ==> params == Set(old(params), if addr < 0 then 0 else addr, FeatVal, value)
      ensures request.refreshed ==> forall a: int, p: Param :: 0 <= a < FeatureCount && IsFeatureParam(p) ==>
        Get(params, a, p) == FeatureEntry(after[a], FeatureIndex[a], p)
      ensures request.refreshed ==> forall a: int, p: Param :: !(0 <= a < FeatureCount && IsFeatureParam(p)) ==>
        Get(params, a, p) == Get(Set(old(params), if addr < 0 then 0 else addr, FeatVal, value), a, p)
    {
      var a0 := if addr < 0 then 0 else addr;
      params := Set(params, a0, FeatVal, value);
      request := Features.WriteFeatureValue(addr, controls, Get(params, a0, FeatMode), value, modeErr, setErr);
      status := request.status;
      if request.refreshed {
        var refreshStatus;
        params, refreshStatus := Refresh(params, after);
      }
    }

    // -------------------------------------------------------------------
    // The grab thread.

    /** The array last allocated is the one for a `sizeX` by `sizeY` frame
        of layout `p`: its dimensions, its byte size and, for a one-colour
        frame, the raw data copied into it (swapped when the host's byte
        order needs it). */
    ghost predicate HoldsFrame(p: PixelLayout, sizeX: int, sizeY: int, raw: seq<byte>)
      requires WellFormed(p) && 0 <= sizeX && 0 <= sizeY
      reads this, frame
    {
      && frameDims == ArrayDims(p.numColors, sizeX, sizeY)
      && frame.Length == ArrayBytes(p, sizeX, sizeY)
      && (p.numColors == 1 ==> frame[..] == Filled(Zeros(frame.Length), raw, NeedsSwap(p.bytesPerColor, hostBigEndian)))
    }

    /** The top of the loop: with Acquire clear, report idle, signal the
        stop event unless this is the first pass after a stop the thread
        made itself, and park on the start event; otherwise go on to grab. */
    method LoopTop()
      requires phase == AtTop
      modifies this`params, this`stopEvent, this`externalStopCmd, this`phase
      ensures Get(old(params), 0, Acquire) != 0 ==>
        phase == ReadyToGrab && params == old(params) && stopEvent == old(stopEvent) && externalStopCmd == old(externalStopCmd)
      ensures Get(old(params), 0, Acquire) == 0 ==>
        && phase == WaitingForStart && params == Set(old(params), 0, DetectorStatus, StatusIdle)
        && stopEvent == (old(stopEvent) || old(externalStopCmd)) && externalStopCmd
    {
      if Get(params, 0, Acquire) == 0 {
        params := Set(params, 0, DetectorStatus, StatusIdle);
        if externalStopCmd {
          stopEvent := true;
        } else {
          externalStopCmd := true;
        }
        phase := WaitingForStart;
      } else {
        phase := ReadyToGrab;
      }
    }

    /** The start event arrives: a new run begins. */
    method Resume()
      requires phase == WaitingForStart && startEvent
      modifies this`params, this`startEvent, this`phase
      ensures phase == ReadyToGrab && !startEvent
      ensures params == Started(old(params))
    {
      startEvent := false;
      params := Started(params);
      phase := ReadyToGrab;
    }

    /** The allocated array of `grabImage` and its filling: the raw copy
        for a mono or Bayer frame, the colour conversion for an RGB1 frame. */
    method FillFrame(p: PixelLayout, sizeX: int, sizeY: int, dims: seq<int>, colorMode: int, input: FrameInput) returns (status: AsynStatus)
      requires 0 <= sizeX && 0 <= sizeY && WellFormed(p)
      modifies this`frame, this`frameDims
      ensures fresh(frame) && frame.Length == ArrayBytes(p, sizeX, sizeY)
      ensures frameDims == dims
      ensures colorMode == ColorModeRGB1 ==> status == Translate(input.rgbErr).status
      ensures colorMode != ColorModeRGB1 ==> status == AsynSuccess
      ensures colorMode != ColorModeRGB1 ==>
        frame[..] == Filled(Zeros(frame.Length), input.raw, NeedsSwap(p.bytesPerColor, hostBigEndian))
    {
      frame := new byte[ArrayBytes(p, sizeX, sizeY)](_ => 0);
      frameDims := dims;
      status := AsynSuccess;
      if colorMode == ColorModeRGB1 {
        // The colour conversion writes the array; its output is not modelled.
        status := Translate(input.rgbErr).status;
      } else {
        assert frame[..] == Zeros(frame.Length);
        var n := FillBuffer(frame, input.raw, p.bytesPerColor, hostBigEndian);
      }
    }

    /** The part of `grabImage` after the layout is known: publish size,
        type and colour mode, allocate the array (stopping the camera when
        the pool has none) and fill it. */
    method Deliver(p: PixelLayout, sizeX: int, sizeY: int, input: FrameInput, stopErr: int) returns (status: AsynStatus)
      requires WellFormed(p) && 0 <= sizeX && 0 <= sizeY
      modifies this`params, this`lease, this`frame, this`frameDims, this`frameColorMode, this`commands, this`stopEvent
      ensures status == AsynSuccess <==> input.poolHasRoom && (p.numColors == 3 ==> !Fails(input.rgbErr))
      ensures lease == if input.poolHasRoom then Allocate(old(lease)) else AllocationFailed(old(lease))
      ensures params == Set(Published(old(params), p, sizeX, sizeY), 0, DetectorStatus,
        if input.poolHasRoom then StatusReadout else StatusAborting)
      ensures commands == StopIf(old(commands), !input.poolHasRoom)
      ensures stopEvent == (old(stopEvent) && input.poolHasRoom)
      ensures !input.poolHasRoom ==> frame == old(frame) && frameDims == old(frameDims) && frameColorMode == old(frameColorMode)
      ensures input.poolHasRoom ==> fresh(frame) && frameColorMode == Get(params, 0, ColorMode)
      ensures input.poolHasRoom ==> HoldsFrame(p, sizeX, sizeY, input.raw)
    {
      params := Published(params, p, sizeX, sizeY);
      var colorMode := Get(params, 0, ColorMode);
      var dims := ArrayDims(p.numColors, sizeX, sizeY);
      if !input.poolHasRoom {
        lease := AllocationFailed(lease);
        params := Set(params, 0, DetectorStatus, StatusAborting);
        var stopStatus, timedOut := StopCapture(stopErr);
        status := AsynError;
        return;
      }
      lease := Allocate(lease);
      status := FillFrame(p, sizeX, sizeY, dims, colorMode, input);
      params := Set(params, 0, DetectorStatus, StatusReadout);
      frameColorMode := colorMode;
    }

    /** `grabImage`: take a frame from the camera and decode its layout; a
        frame that cannot be decoded is refused before any allocation. */
    method GrabImage(input: FrameInput, stopErr: int) returns (status: AsynStatus)
      modifies this`params, this`lease, this`frame, this`frameDims, this`frameColorMode, this`commands, this`stopEvent
      ensures params == AfterGrab(old(params), input)
      ensures status == AsynSuccess <==> GrabSucceeds(input)
      ensures lease == GrabLease(old(lease), input)
      ensures commands == StopIf(old(commands), GrabStops(input))
      ensures stopEvent == (old(stopEvent) && !GrabStops(input))
      ensures !(Decoded(input) && input.poolHasRoom) ==>
        frame == old(frame) && frameDims == old(frameDims) && frameColorMode == old(frameColorMode)
      ensures Decoded(input) && input.poolHasRoom ==>
        && fresh(frame) && frameColorMode == Get(params, 0, ColorMode)
        && HoldsFrame(Layout(input).value, FrameSize(input).0, FrameSize(input).1, input.raw)
    {
      status := Translate(input.acquireErr).status;
      if status == AsynError {
        return;
      }
      var layout := Layout(input);
      var size := FrameSize(input);
      if layout.None? {
        status := AsynError;
        return;
      }
      status := Deliver(layout.value, size.0, size.1, input, stopErr);
    }

    /** The failure tail of the loop: release the array, report Aborting
        and stop the camera. */
    method AbortFrame(stopErr: int)
      modifies this`params, this`lease, this`commands, this`stopEvent
      ensures lease == ReleaseAndClear(old(lease))
      ensures params == Set(old(params), 0, DetectorStatus, StatusAborting)
      ensures commands == old(commands) + [StopStream] && !stopEvent
    {
      // The source releases the array without clearing the pointer; the
      // model clears it (see `Buffers.ReleaseKeepingPointer`).
      lease := ReleaseAndClear(lease);
      params := Set(params, 0, DetectorStatus, StatusAborting);
      var stopStatus, timedOut := StopCapture(stopErr);
    }

    /** The success tail of the loop: count the frame, stamp it with the new
        array counter, hand it to the callbacks when they are enabled,
        release it, and end the run when the image mode says so. */
    method FinishFrame(stopErr: int)
      modifies this`params, this`lease, this`frameUniqueId, this`commands, this`stopEvent, this`externalStopCmd, this`delivered
      ensures params == AfterFrame(old(params))
      ensures frameUniqueId == Get(old(params), 0, ArrayCounter) + 1
      ensures delivered == if Get(old(params), 0, ArrayCallbacks) != 0 then old(delivered) + [frameUniqueId] else old(delivered)
      ensures lease == ReleaseAndClear(old(lease))
      ensures commands == StopIf(old(commands), AutoStop(CountFrame(old(params))))
      ensures externalStopCmd == (old(externalStopCmd) && !AutoStop(CountFrame(old(params))))
      ensures stopEvent == (old(stopEvent) && !AutoStop(CountFrame(old(params))))
    {
      var callbacks := Get(params, 0, ArrayCallbacks);
      params := CountFrame(params);
      frameUniqueId := Get(params, 0, ArrayCounter);
      if callbacks != 0 {
        delivered := delivered + [frameUniqueId];
      }
      lease := ReleaseAndClear(lease);
      if AutoStop(params) {
        params := Set(params, 0, Acquire, 0);
        externalStopCmd := false;
        var stopStatus, timedOut := StopCapture(stopErr);
      }
    }

    /** The start of a pass: report Waiting, then grab. Of the array it
        states only that it is untouched when none was allocated. */
    method BeginPass(input: FrameInput, stopErr: int) returns (status: AsynStatus)
      modifies this`params, this`lease, this`frame, this`frameDims, this`frameColorMode, this`commands, this`stopEvent
      ensures params == AfterGrab(Set(old(params), 0, DetectorStatus, StatusWaiting), input)
      ensures status == AsynSuccess <==> GrabSucceeds(input)
      ensures lease == GrabLease(old(lease), input)
      ensures commands == StopIf(old(commands), GrabStops(input))
      ensures stopEvent == (old(stopEvent) && !GrabStops(input))
      ensures !(Decoded(input) && input.poolHasRoom) ==>
        frame == old(frame) && frameDims == old(frameDims) && frameColorMode == old(frameColorMode)
    {
      params := Set(params, 0, DetectorStatus, StatusWaiting);
      status := GrabImage(input, stopErr);
    }

    /** The end of a pass, once `grabImage` has answered `status` on the
        store `s` it started from: the success tail when the grab succeeded,
        the failure tail otherwise. */
    method EndPass(status: AsynStatus, ghost s: Store, input: FrameInput, stopErr: int)
      requires (status == AsynSuccess) == GrabSucceeds(input)
      requires params == AfterGrab(Set(s, 0, DetectorStatus, StatusWaiting), input)
      modifies this`params, this`lease, this`frameUniqueId, this`commands, this`stopEvent, this`externalStopCmd, this`delivered
      ensures lease == ReleaseAndClear(old(lease))
      ensures params == AfterCycle(s, input)
      ensures commands == StopIf(old(commands), !GrabSucceeds(input) || StopsRun(s, input))
      ensures stopEvent == (old(stopEvent) && GrabSucceeds(input) && !StopsRun(s, input))
      ensures externalStopCmd == (old(externalStopCmd) && !(GrabSucceeds(input) && StopsRun(s, input)))
      ensures delivered == CycleDelivered(old(delivered), s, input)
      ensures frameUniqueId == if GrabSucceeds(input) then Get(s, 0, ArrayCounter) + 1 else old(frameUniqueId)
    {
      if status == AsynError {
        AbortFrame(stopErr);
      } else {
        FinishFrame(stopErr);
      }
    }

    /** One pass of the loop from the grab on. A failed grab reports
        Aborting, releases the array and stops the camera, leaving the
        counters and Acquire alone (so the loop goes on grabbing). A
        successful one counts the frame, stamps the array with the new
        array counter, hands it to the callbacks when they are enabled,
        releases it, and ends the run when the image mode says so. That the
        lease stays sound across the pass is `CycleLeaseSound`. */
    method GrabCycle(input: FrameInput, stopErr: int) returns (status: AsynStatus)
      requires phase == ReadyToGrab && lease.held.None?
      modifies this`params, this`lease, this`frame, this`frameDims, this`frameColorMode, this`frameUniqueId,
        this`commands, this`stopEvent, this`externalStopCmd, this`delivered, this`phase
      ensures phase == AtTop && lease.held.None?
      ensures status == AsynSuccess <==> GrabSucceeds(input)
      ensures params == AfterCycle(old(params), input)
      ensures lease == CycleLease(old(lease), input)
      ensures commands == CycleCommands(old(commands), old(params), input)
      ensures delivered == CycleDelivered(old(delivered), old(params), input)
      ensures externalStopCmd == (old(externalStopCmd) && !(GrabSucceeds(input) && StopsRun(old(params), input)))
      ensures stopEvent == (old(stopEvent) && GrabSucceeds(input) && !StopsRun(old(params), input))
      ensures frameUniqueId == if GrabSucceeds(input) then Get(old(params), 0, ArrayCounter) + 1 else old(frameUniqueId)
      ensures !(Decoded(input) && input.poolHasRoom) ==>
        frame == old(frame) && frameDims == old(frameDims) && frameColorMode == old(frameColorMode)
    {
      ghost var s := params;
      status := BeginPass(input, stopErr);
      ghost var f, dims, mode := frame, frameDims, frameColorMode;
      EndPass(status, s, input, stopErr);
      assert frame == f && frameDims == dims && frameColorMode == mode;
      phase := AtTop;
    }
  }
}
