/** Camera features: the fixed table of 22 controls, the packed two-channel
    integer value with its range check, the mode check, and the per-address
    entries that a refresh writes into the parameter store. */
module Features {
  import opened Options
  import opened CInt
  import opened CamErrors
  import opened Params

  datatype FeatureId =
    | Brightness | AutoExposure | Sharpness | WhiteBalance | Hue | Saturation
    | Gamma | Shutter | Gain | Iris | Focus | Temperature | TriggerMode
    | TriggerDelay | WhiteShading | FrameRate | Zoom | Pan | Tilt
    | OpticalFilter | CaptureSize | CaptureQuality

  /** The asyn address of a feature is its index in this table. */
  const FeatureIndex: seq<FeatureId> := [
    Brightness, AutoExposure, Sharpness, WhiteBalance, Hue, Saturation,
    Gamma, Shutter, Gain, Iris, Focus, Temperature, TriggerMode,
    TriggerDelay, WhiteShading, FrameRate, Zoom, Pan, Tilt,
    OpticalFilter, CaptureSize, CaptureQuality
  ]

  const FeatureCount := 22

  /** What the camera library reports for one feature after `Inquire`:
      presence, supported modes, the integer range, the current (lo, hi)
      value and the automatic-mode status. */
  datatype Control = Control(
    present: bool, hasManual: bool, hasAuto: bool, hasAbsolute: bool,
    min: int, max: int, lo: int, hi: int, autoMode: int)

  /** The library's types: range and value are `unsigned short`, the
      automatic-mode status a boolean. */
  predicate WellTyped(c: Control) {
    && 0 <= c.min < 0x1_0000 && 0 <= c.max < 0x1_0000
    && 0 <= c.lo < 0x1_0000 && 0 <= c.hi < 0x1_0000
    && (c.autoMode == 0 || c.autoMode == 1)
  }

  /** `checkFeature`: the address names a table entry and the camera has that feature. */
  predicate CheckFeature(addr: int, controls: seq<Control>)
    requires |controls| == FeatureCount
  {
    0 <= addr < FeatureCount && controls[addr].present
  }

  // ---------------------------------------------------------------------
  // The packed value: two 12-bit sub-channels.

  datatype Packed = Packed(lo: int, hi: int)

  const SubRange := 0x1000     // 2^12
  const PackedRange := 0x100_0000  // 2^24

  /** `lo + (hi << 12)` */
  function Pack(p: Packed): int {
    p.lo + p.hi * SubRange
  }

  /** `lo = value & 0xFFF`, `hi = (value >> 12) & 0xFFF` on a two's complement
      `epicsInt32`: the low twelve bits and the twelve above them. */
  function Unpack(value: int): (p: Packed)
    ensures 0 <= p.lo < SubRange && 0 <= p.hi < SubRange
    ensures (value - Pack(p)) % PackedRange == 0
  {
    var q := value / SubRange;
    var p := Packed(value % SubRange, q % SubRange);
    assert value - Pack(p) == (q / SubRange) * PackedRange by {
      assert value == q * SubRange + p.lo;
      assert q == (q / SubRange) * SubRange + p.hi;
    }
    MultipleMod(q / SubRange, PackedRange);
    p
  }

  /** Packing an unpacked 24-bit value gives it back. */
  lemma PackUnpack(value: int)
    requires 0 <= value < PackedRange
    ensures Pack(Unpack(value)) == value
  {
    var p := Unpack(value);
    var d := value - Pack(p);
    assert -PackedRange < d < PackedRange;
    assert d % PackedRange == 0;
    var k := d / PackedRange;
    assert d == k * PackedRange;
    if k >= 1 {
      assert false;
    } else if k <= -1 {
      assert false;
    }
  }

  /** Unpacking a packed pair of 12-bit values gives the pair back. */
  lemma UnpackPack(p: Packed)
    requires 0 <= p.lo < SubRange && 0 <= p.hi < SubRange
    ensures Unpack(Pack(p)) == p
  {
    var v := Pack(p);
    assert 0 <= v < PackedRange;
    PackUnpack(v);
    var u := Unpack(v);
    assert u.lo + u.hi * SubRange == p.lo + p.hi * SubRange;
    assert u.lo == p.lo by {
      assert (u.hi - p.hi) * SubRange == p.lo - u.lo;
      if u.hi - p.hi >= 1 {
        assert false;
      } else if u.hi - p.hi <= -1 {
        assert false;
      }
    }
  }

  /** The range check of `setFeatureValue`: `lo` inside [min, max] and `hi` at most `max`. */
  predicate InRange(p: Packed, min: int, max: int) {
    min <= p.lo <= max && p.hi <= max
  }

  /** A value without a high channel is accepted exactly when it lies in [min, max]. */
  lemma SingleChannelRange(value: int, min: int, max: int)
    requires 0 <= value < SubRange && 0 <= max
    ensures InRange(Unpack(value), min, max) <==> min <= value <= max
  {
  }

  /** The high channel is not held to the minimum: with range [10, 100] the
      value 50 (lo 50, hi 0) is accepted although hi < min. */
  lemma HighChannelIgnoresMin()
    ensures Unpack(50) == Packed(50, 0) && InRange(Unpack(50), 10, 100)
  {
  }

  /** `FDC_feat_val_max` as reported: for white balance `(max << 12) + max`, else `max`. */
  function ReportedMax(id: FeatureId, max: int): int {
    if id == WhiteBalance then max * SubRange + max else max
  }

  /** The reported white-balance maximum bounds every accepted 24-bit value,
      and is itself accepted, as the pair (max, max). */
  lemma WhiteBalanceMaxBoundsAccepted(value: int, min: int, max: int)
    requires 0 <= min <= max < SubRange
    ensures 0 <= value < PackedRange && InRange(Unpack(value), min, max) ==> value <= ReportedMax(WhiteBalance, max)
    ensures Unpack(ReportedMax(WhiteBalance, max)) == Packed(max, max)
    ensures InRange(Unpack(ReportedMax(WhiteBalance, max)), min, max)
  {
    if 0 <= value < PackedRange {
      PackUnpack(value);
      var p := Unpack(value);
      if p.hi <= max {
        assert p.hi * SubRange <= max * SubRange;
      }
    }
    UnpackPack(Packed(max, max));
  }

  // ---------------------------------------------------------------------
  // The setters.

  /** What `setFeatureValue` returns and what it sends to the camera. */
  datatype FeatureWrite = FeatureWrite(status: AsynStatus, written: Option<Packed>)

  /** `setFeatureValue`: an unusable feature returns the initial success status
      without writing; an out-of-range value is an error; otherwise the
      unpacked pair goes to the camera and its code is translated. */
  function SetFeatureValue(addr: int, controls: seq<Control>, value: int, setErr: int): (w: FeatureWrite)
    requires |controls| == FeatureCount
    ensures !CheckFeature(addr, controls) ==> w == FeatureWrite(AsynSuccess, None)
    ensures CheckFeature(addr, controls) ==>
      (w.written.Some? <==> InRange(Unpack(value), controls[addr].min, controls[addr].max))
    ensures w.written.Some? ==> w.written.value == Unpack(value) && w.status == Translate(setErr).status
    ensures w.status == AsynError <==>
      CheckFeature(addr, controls) && (w.written.None? || setErr != 0)
  {
    if !CheckFeature(addr, controls) then FeatureWrite(AsynSuccess, None)
    else
      var p := Unpack(value);
      var c := controls[addr];
      if p.lo < c.min || p.lo > c.max then FeatureWrite(AsynError, None)
      else if p.hi > c.max then FeatureWrite(AsynError, None)
      else FeatureWrite(Translate(setErr).status, Some(p))
  }

  /** What `setFeatureMode` returns and the mode it sends to the camera. */
  datatype ModeWrite = ModeWrite(status: AsynStatus, written: Option<int>)

  /** `setFeatureMode`: mode 0 (manual) needs manual support, any other mode
      automatic support; an unusable feature or unsupported mode is an error. */
  function SetFeatureMode(addr: int, controls: seq<Control>, value: int, modeErr: int): (w: ModeWrite)
    requires |controls| == FeatureCount
    ensures w.written.Some? <==>
      CheckFeature(addr, controls) && (if value == 0 then controls[addr].hasManual else controls[addr].hasAuto)
    ensures w.written.None? ==> w.status == AsynError
    ensures w.written.Some? ==> w.written.value == value && w.status == Translate(modeErr).status
  {
    if !CheckFeature(addr, controls) then ModeWrite(AsynError, None)
    else if value == 0 && !controls[addr].hasManual then ModeWrite(AsynError, None)
    else if value != 0 && !controls[addr].hasAuto then ModeWrite(AsynError, None)
    else ModeWrite(Translate(modeErr).status, Some(value))
  }

  /** The two setters treat a missing feature differently: the value setter
      reports success, the mode setter an error. */
  lemma MissingFeatureStatuses(addr: int, controls: seq<Control>, value: int, mode: int, code: int)
    requires |controls| == FeatureCount && !CheckFeature(addr, controls)
    ensures SetFeatureValue(addr, controls, value, code).status == AsynSuccess
    ensures SetFeatureMode(addr, controls, mode, code).status == AsynError
  {
  }

  /** The outcome of an `FDC_feat_val` write in `writeInt32`. */
  datatype ValueRequest = ValueRequest(
    status: AsynStatus, modeWrite: Option<int>, valueWrite: Option<Packed>, refreshed: bool)

  /** `writeInt32` for `FDC_feat_val`: a feature not in mode 0 is switched to
      manual first, and a failed switch ends the request; otherwise the value
      is set and all features are refreshed, and the refresh's status (always
      success) is what the caller sees. */
  function WriteFeatureValue(addr: int, controls: seq<Control>, storedMode: int, value: int,
                             modeErr: int, setErr: int): (r: ValueRequest)
    requires |controls| == FeatureCount
    ensures r.status == AsynError <==>
      storedMode != 0 && SetFeatureMode(addr, controls, 0, modeErr).status == AsynError
    ensures r.status == AsynError ==> r.valueWrite.None? && !r.refreshed
    ensures r.status == AsynSuccess ==> r.refreshed && r.valueWrite == SetFeatureValue(addr, controls, value, setErr).written
    ensures r.modeWrite.Some? ==> storedMode != 0 && r.modeWrite.value == 0
  {
    if storedMode != 0 && SetFeatureMode(addr, controls, 0, modeErr).status == AsynError then
      ValueRequest(AsynError, SetFeatureMode(addr, controls, 0, modeErr).written, None, false)
    else
      var m := if storedMode != 0 then SetFeatureMode(addr, controls, 0, modeErr).written else None;
      ValueRequest(AsynSuccess, m, SetFeatureValue(addr, controls, value, setErr).written, true)
  }

  /** A value outside the range is never reported to the caller of `writeInt32`:
      the refresh that follows overwrites the setter's error. */
  lemma RangeErrorHidden(addr: int, controls: seq<Control>, value: int, setErr: int)
    requires |controls| == FeatureCount && CheckFeature(addr, controls)
    requires !InRange(Unpack(value), controls[addr].min, controls[addr].max)
    ensures SetFeatureValue(addr, controls, value, setErr).status == AsynError
    ensures WriteFeatureValue(addr, controls, 0, value, 0, setErr).status == AsynSuccess
  {
  }

  // ---------------------------------------------------------------------
  // What `getAllFeatures` writes for one address.

  predicate IsFeatureParam(p: Param) {
    p == FeatAvailable || p == FeatVal || p == FeatValMin || p == FeatValMax || p == FeatMode || p == FeatAbsolute
  }

  /** A present feature reports its range, packed value and mode; an absent
      one 0 for availability and -1 for the rest; the absolute flag applies
      to both. */
  function FeatureEntry(c: Control, id: FeatureId, p: Param): int
    requires IsFeatureParam(p)
  {
    if p == FeatAbsolute then (if c.hasAbsolute then 1 else 0)
    else if !c.present then (if p == FeatAvailable then 0 else -1)
    else if p == FeatAvailable then 1
    else if p == FeatVal then Pack(Packed(c.lo, c.hi))
    else if p == FeatValMin then c.min
    else if p == FeatValMax then ReportedMax(id, c.max)
    else c.autoMode
  }

  /** One pass of that loop: the entries of address `addr`. */
  method WriteEntries(s: Store, addr: int, c: Control) returns (t: Store)
    requires 0 <= addr < FeatureCount
    ensures forall p: Param :: IsFeatureParam(p) ==> Get(t, addr, p) == FeatureEntry(c, FeatureIndex[addr], p)
    ensures forall a: int, p: Param :: !(a == addr && IsFeatureParam(p)) ==> Get(t, a, p) == Get(s, a, p)
  {
    t := s;
    if c.present {
      t := t[(addr, FeatAvailable) := 1];
      t := t[(addr, FeatVal) := Pack(Packed(c.lo, c.hi))];
      t := t[(addr, FeatValMin) := c.min];
      t := t[(addr, FeatValMax) := ReportedMax(FeatureIndex[addr], c.max)];
      t := t[(addr, FeatMode) := c.autoMode];
    } else {
      t := t[(addr, FeatAvailable) := 0];
      t := t[(addr, FeatVal) := -1];
      t := t[(addr, FeatValMin) := -1];
      t := t[(addr, FeatValMax) := -1];
      t := t[(addr, FeatMode) := -1];
    }
    t := t[(addr, FeatAbsolute) := if c.hasAbsolute then 1 else 0];
  }

  /** The first loop of `getAllFeatures`: for every address of the table,
      the six integer entries of its feature; nothing else in the store
      changes, and the status is always success. */
  method Refresh(s: Store, controls: seq<Control>) returns (t: Store, status: AsynStatus)
    requires |controls| == FeatureCount
    ensures forall a: int, p: Param :: 0 <= a < FeatureCount && IsFeatureParam(p) ==>
      Get(t, a, p) == FeatureEntry(controls[a], FeatureIndex[a], p)
    ensures forall a: int, p: Param :: !(0 <= a < FeatureCount && IsFeatureParam(p)) ==> Get(t, a, p) == Get(s, a, p)
    ensures status == AsynSuccess
  {
    t := s;
    for addr := 0 to FeatureCount
      invariant forall a: int, p: Param :: 0 <= a < addr && IsFeatureParam(p) ==>
        Get(t, a, p) == FeatureEntry(controls[a], FeatureIndex[a], p)
      invariant forall a: int, p: Param :: !(0 <= a < addr && IsFeatureParam(p)) ==> Get(t, a, p) == Get(s, a, p)
    {
      t := WriteEntries(t, addr, controls[addr]);
    }
    status := AsynSuccess;
  }

  /** For the library's value types, -1 in a value, range or mode entry marks
      exactly the absent features, and availability is 1 exactly for the present ones. */
  lemma AbsentIffMinusOne(c: Control, id: FeatureId, p: Param)
    requires WellTyped(c)
    requires p == FeatVal || p == FeatValMin || p == FeatValMax || p == FeatMode
    ensures FeatureEntry(c, id, p) == -1 <==> !c.present
    ensures FeatureEntry(c, id, FeatAvailable) == (if c.present then 1 else 0)
  {
  }

  /** Write then read back: when a 24-bit value passes the range check and the
      camera keeps the pair it was sent, the refreshed entry is the value written. */
  lemma AcceptedValueReadsBack(addr: int, controls: seq<Control>, value: int, setErr: int)
    requires |controls| == FeatureCount
    requires 0 <= value < PackedRange
    requires SetFeatureValue(addr, controls, value, setErr).written.Some?
    ensures var p := SetFeatureValue(addr, controls, value, setErr).written.value;
      var echoed := controls[addr].(lo := p.lo, hi := p.hi);
      FeatureEntry(echoed, FeatureIndex[addr], FeatVal) == value
  {
    PackUnpack(value);
  }

  /** The refreshed value unpacks to the camera's pair when both fit in 12 bits. */
  lemma RefreshedValueUnpacks(c: Control, id: FeatureId)
    requires c.present && 0 <= c.lo < SubRange && 0 <= c.hi < SubRange
    ensures Unpack(FeatureEntry(c, id, FeatVal)) == Packed(c.lo, c.hi)
  {
    UnpackPack(Packed(c.lo, c.hi));
  }
}
