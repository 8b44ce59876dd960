/** The camera setters behind `writeInt32`: video format, video mode, frame
    rate and the Format 7 parameters. Each is a decision over what the
    camera reports, producing the sequence of calls it makes and the status
    it returns. Each library call answers with an error code given as input. */
module Configuration {
  import opened CamErrors
  import opened Format7Roi

  datatype Action =
    | StopCapture | StartCapture
    | WriteVideoFormat(format: int) | WriteVideoMode(mode: int) | WriteFrameRate(rate: int)
    | WriteColorCode(code: int) | WritePosition(left: int, top: int) | WriteSize(width: int, height: int)
    | WriteBytesPerPacket
    | ReadBackFormat7    // position, size and colour code read back into the store
    | RefreshValidModes  // `formatValidModes`
    | RefreshFeatures    // `getAllFeatures`

  datatype Outcome = Outcome(status: AsynStatus, actions: seq<Action>)

  /** What the camera reports: its supported formats, (format, mode) pairs
      and (format, mode, rate) triples, its current format and mode, and its
      Format 7 limits. */
  datatype Camera = Camera(
    formats: set<int>, modes: set<(int, int)>, rates: set<(int, int, int)>,
    format: int, mode: int, limits: Limits)

  /** The code each kind of library call returns for this request. */
  datatype Codes = Codes(
    stop: int, format: int, mode: int, rate: int,
    colorCode: int, position: int, size: int, bytesPerPacket: int)

  function Halt(wasAcquiring: bool): seq<Action> {
    if wasAcquiring then [StopCapture] else []
  }

  function Restart(wasAcquiring: bool): seq<Action> {
    if wasAcquiring then [StartCapture] else []
  }

  /** A running acquisition is stopped first and restarted last; an idle one
      is neither stopped nor started. */
  predicate Bracketed(actions: seq<Action>, wasAcquiring: bool) {
    if wasAcquiring then
      |actions| >= 2 && actions[0] == StopCapture && actions[|actions| - 1] == StartCapture
    else
      StopCapture !in actions && StartCapture !in actions
  }

  predicate WritesRoi(a: Action) {
    a.WriteColorCode? || a.WritePosition? || a.WriteSize? || a.WriteBytesPerPacket?
  }

  /** The four Format 7 writes in the order they are made. */
  function Format7Sequence(r: Roi, colorCode: int): seq<Action> {
    [WriteColorCode(colorCode), WritePosition(r.minX, r.minY), WriteSize(r.sizeX, r.sizeY), WriteBytesPerPacket]
  }

  /** The codes of those four writes, in the same order. */
  function Format7Codes(codes: Codes): seq<int> {
    [codes.colorCode, codes.position, codes.size, codes.bytesPerPacket]
  }

  /** The Format 7 writes, in order, each stopping at the first failure. */
  function Format7Writes(r: Roi, colorCode: int, codes: Codes): (o: Outcome)
    ensures o.status == AsynError <==>
      Fails(codes.colorCode) || Fails(codes.position) || Fails(codes.size) || Fails(codes.bytesPerPacket)
    ensures 1 <= |o.actions| <= 4 && o.actions[0] == WriteColorCode(colorCode)
    ensures forall a :: a in o.actions ==> WritesRoi(a)
    ensures forall w, h :: WriteSize(w, h) in o.actions ==> w == r.sizeX && h == r.sizeY
    ensures forall x, y :: WritePosition(x, y) in o.actions ==> x == r.minX && y == r.minY
  {
    if Fails(codes.colorCode) then Outcome(AsynError, [WriteColorCode(colorCode)])
    else if Fails(codes.position) then Outcome(AsynError, [WriteColorCode(colorCode), WritePosition(r.minX, r.minY)])
    else if Fails(codes.size) then
      Outcome(AsynError, [WriteColorCode(colorCode), WritePosition(r.minX, r.minY), WriteSize(r.sizeX, r.sizeY)])
    else
      Outcome(Translate(codes.bytesPerPacket).status,
        [WriteColorCode(colorCode), WritePosition(r.minX, r.minY), WriteSize(r.sizeX, r.sizeY), WriteBytesPerPacket])
  }

  /** The order of the Format 7 writes: those made are a prefix of the four,
      every one but the last succeeded, the sequence is cut short only by a
      failure, and the status is that of the last write made. */
  lemma Format7WritesOrder(r: Roi, colorCode: int, codes: Codes)
    ensures var o := Format7Writes(r, colorCode, codes);
      && o.actions == Format7Sequence(r, colorCode)[..|o.actions|]
      && (forall i :: 0 <= i < |o.actions| - 1 ==> !Fails(Format7Codes(codes)[i]))
      && (|o.actions| < 4 ==> Fails(Format7Codes(codes)[|o.actions| - 1]))
      && o.status == Translate(Format7Codes(codes)[|o.actions| - 1]).status
  {
  }

  /** `setFormat7Params`: stop a running acquisition (ending here if that
      fails), leave silently unless the camera is in Format 7, write the
      normalised region and colour code, then always read the camera's values
      back and restart. */
  function SetFormat7Params(wasAcquiring: bool, cam: Camera, req: Roi, colorCode: int, codes: Codes): (o: Outcome)
    requires Usable(cam.limits)
    ensures Bracketed(o.actions, wasAcquiring)
    ensures o.status == AsynError <==>
      (wasAcquiring && Fails(codes.stop))
      || (!(wasAcquiring && Fails(codes.stop)) && cam.format == 7 &&
          (Fails(codes.colorCode) || Fails(codes.position) || Fails(codes.size) || Fails(codes.bytesPerPacket)))
  {
    var done := [ReadBackFormat7] + Restart(wasAcquiring);
    if wasAcquiring && Fails(codes.stop) then
      Outcome(AsynError, Halt(wasAcquiring) + done)
    else if cam.format != 7 then
      Outcome(AsynSuccess, Halt(wasAcquiring) + done)
    else
      var w := Format7Writes(Normalised(req, cam.limits), colorCode, codes);
      Outcome(w.status, Halt(wasAcquiring) + w.actions + done)
  }

  /** What `setFormat7Params` does to the camera: the values are always read
      back, and besides that it only stops, restarts and writes the region. */
  lemma Format7ParamsActions(wasAcquiring: bool, cam: Camera, req: Roi, colorCode: int, codes: Codes)
    requires Usable(cam.limits)
    ensures var o := SetFormat7Params(wasAcquiring, cam, req, colorCode, codes);
      && ReadBackFormat7 in o.actions
      && (forall a :: a in o.actions ==> a == StopCapture || a == StartCapture || a == ReadBackFormat7 || WritesRoi(a))
  {
    var done := [ReadBackFormat7] + Restart(wasAcquiring);
    assert done[0] == ReadBackFormat7;
  }

  /** `setFormat7Params` writes the region exactly when the camera is in
      Format 7 and the stop did not fail. */
  lemma Format7ParamsWritesRoi(wasAcquiring: bool, cam: Camera, req: Roi, colorCode: int, codes: Codes)
    requires Usable(cam.limits)
    ensures var o := SetFormat7Params(wasAcquiring, cam, req, colorCode, codes);
      (exists a :: a in o.actions && WritesRoi(a)) <==> cam.format == 7 && !(wasAcquiring && Fails(codes.stop))
  {
    var o := SetFormat7Params(wasAcquiring, cam, req, colorCode, codes);
    var done := [ReadBackFormat7] + Restart(wasAcquiring);
    assert forall a :: a in done ==> !WritesRoi(a);
    assert forall a :: a in Halt(wasAcquiring) ==> !WritesRoi(a);
    if !(wasAcquiring && Fails(codes.stop)) && cam.format == 7 {
      var w := Format7Writes(Normalised(req, cam.limits), colorCode, codes);
      assert o.actions == Halt(wasAcquiring) + w.actions + done;
      assert w.actions[0] in o.actions;
    }
  }

  /** The region `setFormat7Params` writes is the normalised request. */
  lemma Format7ParamsWritesNormalised(wasAcquiring: bool, cam: Camera, req: Roi, colorCode: int, codes: Codes)
    requires Usable(cam.limits)
    ensures var o := SetFormat7Params(wasAcquiring, cam, req, colorCode, codes);
      var r := Normalised(req, cam.limits);
      && (forall w, h :: WriteSize(w, h) in o.actions ==> w == r.sizeX && h == r.sizeY)
      && (forall x, y :: WritePosition(x, y) in o.actions ==> x == r.minX && y == r.minY)
  {
  }

  /** What follows a successful format write: the Format 7 parameters when
      the new format is 7, then the refresh of valid modes and features. */
  function AfterFormatWrite(wasAcquiring: bool, cam: Camera, format: int, req: Roi, colorCode: int, codes: Codes): (a: seq<Action>)
    requires Usable(cam.limits)
    ensures |a| >= 2 && a[|a| - 1] == RefreshFeatures
    ensures !wasAcquiring ==> StopCapture !in a && StartCapture !in a
  {
    var nested := if format == 7
      then SetFormat7Params(wasAcquiring, cam.(format := 7), req, colorCode, codes).actions
      else [];
    nested + [RefreshValidModes, RefreshFeatures]
  }

  /** The part after a format write never writes a format, and reads the
      Format 7 values back exactly when the new format is 7. */
  lemma AfterFormatWriteActions(wasAcquiring: bool, cam: Camera, format: int, req: Roi, colorCode: int, codes: Codes)
    requires Usable(cam.limits)
    ensures var a := AfterFormatWrite(wasAcquiring, cam, format, req, colorCode, codes);
      && (forall f :: WriteVideoFormat(f) !in a)
      && (ReadBackFormat7 in a <==> format == 7)
  {
    Format7ParamsActions(wasAcquiring, cam.(format := 7), req, colorCode, codes);
    var nested := if format == 7
      then SetFormat7Params(wasAcquiring, cam.(format := 7), req, colorCode, codes).actions
      else [];
    var tail := [RefreshValidModes, RefreshFeatures];
    assert forall f :: WriteVideoFormat(f) !in nested;
    assert AfterFormatWrite(wasAcquiring, cam, format, req, colorCode, codes) == nested + tail;
  }

  /** `setVideoFormat`: an unsupported format ends the request with the
      status still success; after a successful write a Format 7 camera gets
      its parameters applied, and the valid modes and features are refreshed. */
  function SetVideoFormat(wasAcquiring: bool, cam: Camera, format: int, req: Roi, colorCode: int, codes: Codes): (o: Outcome)
    requires Usable(cam.limits)
    ensures Bracketed(o.actions, wasAcquiring)
    ensures o.status == AsynError <==>
      (wasAcquiring && Fails(codes.stop)) || (!(wasAcquiring && Fails(codes.stop)) && format in cam.formats && Fails(codes.format))
    ensures forall f :: WriteVideoFormat(f) in o.actions ==> f == format && format in cam.formats
    ensures WriteVideoFormat(format) in o.actions <==> !(wasAcquiring && Fails(codes.stop)) && format in cam.formats
    ensures RefreshFeatures in o.actions <==> !(wasAcquiring && Fails(codes.stop)) && format in cam.formats && !Fails(codes.format)
  {
    var done := Restart(wasAcquiring);
    if wasAcquiring && Fails(codes.stop) then
      Outcome(AsynError, Halt(wasAcquiring) + done)
    else if format !in cam.formats then
      Outcome(AsynSuccess, Halt(wasAcquiring) + done)
    else if Fails(codes.format) then
      Outcome(AsynError, Halt(wasAcquiring) + [WriteVideoFormat(format)] + done)
    else
      AfterFormatWriteActions(wasAcquiring, cam, format, req, colorCode, codes);
      Outcome(AsynSuccess,
        Halt(wasAcquiring) + [WriteVideoFormat(format)] + AfterFormatWrite(wasAcquiring, cam, format, req, colorCode, codes) + done)
  }

  /** How often `x` occurs in `s`. */
  function Count(s: seq<Action>, x: Action): nat
    decreases |s|
  {
    if s == [] then 0 else (if s[0] == x then 1 else 0) + Count(s[1..], x)
  }

  lemma {:induction false} CountConcat(a: seq<Action>, b: seq<Action>, x: Action)
    ensures Count(a + b, x) == Count(a, x) + Count(b, x)
    decreases |a|
  {
    if a != [] {
      assert (a + b)[1..] == a[1..] + b;
      CountConcat(a[1..], b, x);
    } else {
      assert a + b == b;
    }
  }

  lemma {:induction false} CountAbsent(s: seq<Action>, x: Action)
    requires x !in s
    ensures Count(s, x) == 0
    decreases |s|
  {
    if s != [] {
      assert s[0] != x;
      assert forall i :: 0 <= i < |s[1..]| ==> s[1..][i] == s[i + 1];
      CountAbsent(s[1..], x);
    }
  }

  /** The shape of a format switch to 7 on a running camera, around the
      nested Format 7 writes `w`. */
  function NestedRestartShape(w: seq<Action>): seq<Action> {
    [StopCapture] + [WriteVideoFormat(7)]
      + (([StopCapture] + w + ([ReadBackFormat7] + [StartCapture])) + [RefreshValidModes, RefreshFeatures])
      + [StartCapture]
  }

  lemma StopStartCounts(w: seq<Action>, x: Action)
    requires x == StartCapture || x == StopCapture
    requires StartCapture !in w && StopCapture !in w
    ensures Count(NestedRestartShape(w), x) == 2
  {
    var head: seq<Action> := [StopCapture] + [WriteVideoFormat(7)];
    var mid: seq<Action> := [ReadBackFormat7] + [StartCapture];
    var refresh: seq<Action> := [RefreshValidModes, RefreshFeatures];
    var one := if x == StopCapture then 1 else 0;
    var other := 1 - one;
    assert Count([StopCapture], x) == one by {
      assert [StopCapture][1..] == [];
    }
    assert Count([StartCapture], x) == other by {
      assert [StartCapture][1..] == [];
    }
    assert Count([WriteVideoFormat(7)], x) == 0 by {
      assert [WriteVideoFormat(7)][1..] == [];
    }
    assert Count([ReadBackFormat7], x) == 0 by {
      assert [ReadBackFormat7][1..] == [];
    }
    CountAbsent(refresh, x);
    CountAbsent(w, x);
    CountConcat([StopCapture], [WriteVideoFormat(7)], x);
    CountConcat([ReadBackFormat7], [StartCapture], x);
    CountConcat([StopCapture], w, x);
    CountConcat([StopCapture] + w, mid, x);
    CountConcat([StopCapture] + w + mid, refresh, x);
    CountConcat(head, [StopCapture] + w + mid + refresh, x);
    CountConcat(head + ([StopCapture] + w + mid + refresh), [StartCapture], x);
  }

  /** Switching a running camera to Format 7 stops and restarts it twice:
      once around the nested Format 7 update and once around the whole request. */
  lemma Format7SwitchRestartsTwice(cam: Camera, req: Roi, colorCode: int, codes: Codes)
    requires Usable(cam.limits) && 7 in cam.formats && !Fails(codes.stop) && !Fails(codes.format)
    ensures Count(SetVideoFormat(true, cam, 7, req, colorCode, codes).actions, StartCapture) == 2
    ensures Count(SetVideoFormat(true, cam, 7, req, colorCode, codes).actions, StopCapture) == 2
  {
    var w := Format7Writes(Normalised(req, cam.limits), colorCode, codes).actions;
    var nested := SetFormat7Params(true, cam.(format := 7), req, colorCode, codes).actions;
    assert nested == [StopCapture] + w + ([ReadBackFormat7] + [StartCapture]);
    var after := AfterFormatWrite(true, cam, 7, req, colorCode, codes);
    assert after == nested + [RefreshValidModes, RefreshFeatures];
    assert SetVideoFormat(true, cam, 7, req, colorCode, codes).actions
        == [StopCapture] + [WriteVideoFormat(7)] + after + [StartCapture];
    StopStartCounts(w, StartCapture);
    StopStartCounts(w, StopCapture);
  }

  /** `setVideoMode` with the format read from the camera before it is used:
      an unsupported mode is an error; whatever happened, a Format 7 camera
      gets its parameters applied and the valid modes and features are refreshed. */
  function SetVideoMode(wasAcquiring: bool, cam: Camera, mode: int, req: Roi, colorCode: int, codes: Codes): (o: Outcome)
    requires Usable(cam.limits)
    ensures Bracketed(o.actions, wasAcquiring)
    ensures o.status == AsynError <==>
      (wasAcquiring && Fails(codes.stop)) || (cam.format, mode) !in cam.modes || Fails(codes.mode)
  {
    SetVideoModeWithFormat(wasAcquiring, cam, mode, req, colorCode, codes, cam.format)
  }

  /** What `setVideoMode` does to the camera: it writes only the requested,
      supported mode, always refreshes the features, and applies the Format 7
      parameters exactly when the camera is in Format 7. */
  lemma VideoModeActions(wasAcquiring: bool, cam: Camera, mode: int, req: Roi, colorCode: int, codes: Codes)
    requires Usable(cam.limits)
    ensures var o := SetVideoMode(wasAcquiring, cam, mode, req, colorCode, codes);
      && (forall m :: WriteVideoMode(m) in o.actions ==> m == mode && (cam.format, mode) in cam.modes)
      && RefreshFeatures in o.actions
      && (ReadBackFormat7 in o.actions <==> cam.format == 7)
  {
    VideoModeWithFormatActions(wasAcquiring, cam, mode, req, colorCode, codes, cam.format);
  }

  /** `setVideoMode` as written: when stopping fails, the jump to `done`
      skips the read of the current format, and `done` then tests the
      uninitialised local `format`; `garbage` stands for its value. */
  function SetVideoModeAsWritten(wasAcquiring: bool, cam: Camera, mode: int, req: Roi, colorCode: int, codes: Codes, garbage: int): (o: Outcome)
    requires Usable(cam.limits)
    ensures !(wasAcquiring && Fails(codes.stop)) ==> o == SetVideoMode(wasAcquiring, cam, mode, req, colorCode, codes)
  {
    SetVideoModeWithFormat(wasAcquiring, cam, mode, req, colorCode, codes,
      if wasAcquiring && Fails(codes.stop) then garbage else cam.format)
  }

  /** The common body; `formatAtDone` is what the `done` label sees in `format`. */
  function SetVideoModeWithFormat(wasAcquiring: bool, cam: Camera, mode: int, req: Roi, colorCode: int, codes: Codes,
                                  formatAtDone: int): (o: Outcome)
    requires Usable(cam.limits)
    ensures Bracketed(o.actions, wasAcquiring)
    ensures o.status == AsynError <==>
      (wasAcquiring && Fails(codes.stop)) || (cam.format, mode) !in cam.modes || Fails(codes.mode)
  {
    var done := ModeDone(wasAcquiring, cam, req, colorCode, codes, formatAtDone);
    if wasAcquiring && Fails(codes.stop) then
      Outcome(AsynError, Halt(wasAcquiring) + done)
    else if (cam.format, mode) !in cam.modes then
      Outcome(AsynError, Halt(wasAcquiring) + done)
    else
      Outcome(Translate(codes.mode).status, Halt(wasAcquiring) + [WriteVideoMode(mode)] + done)
  }

  /** The `done` part of `setVideoMode`: the nested `setFormat7Params`
      (which reads the camera's own format) when the format it tests is 7,
      the refresh, and the restart. */
  function ModeDone(wasAcquiring: bool, cam: Camera, req: Roi, colorCode: int, codes: Codes, formatAtDone: int): (d: seq<Action>)
    requires Usable(cam.limits)
    ensures |d| >= 2 && (wasAcquiring ==> d[|d| - 1] == StartCapture)
    ensures !wasAcquiring ==> StopCapture !in d && StartCapture !in d
  {
    var nested := if formatAtDone == 7
      then SetFormat7Params(wasAcquiring, cam, req, colorCode, codes).actions
      else [];
    nested + [RefreshValidModes, RefreshFeatures] + Restart(wasAcquiring)
  }

  /** The `done` part never writes a mode and always refreshes the features. */
  lemma ModeDoneActions(wasAcquiring: bool, cam: Camera, req: Roi, colorCode: int, codes: Codes, formatAtDone: int)
    requires Usable(cam.limits)
    ensures var d := ModeDone(wasAcquiring, cam, req, colorCode, codes, formatAtDone);
      (forall m :: WriteVideoMode(m) !in d) && RefreshFeatures in d
  {
    Format7ParamsActions(wasAcquiring, cam, req, colorCode, codes);
    var nested := if formatAtDone == 7
      then SetFormat7Params(wasAcquiring, cam, req, colorCode, codes).actions
      else [];
    assert forall m :: WriteVideoMode(m) !in nested;
    var d := ModeDone(wasAcquiring, cam, req, colorCode, codes, formatAtDone);
    assert d == nested + ([RefreshValidModes, RefreshFeatures] + Restart(wasAcquiring));
    assert d[|nested| + 1] == RefreshFeatures;
  }

  /** The `done` part reads the Format 7 values back exactly when
      `formatAtDone` is 7. */
  lemma ModeDoneReadsBack(wasAcquiring: bool, cam: Camera, req: Roi, colorCode: int, codes: Codes, formatAtDone: int)
    requires Usable(cam.limits)
    ensures ReadBackFormat7 in ModeDone(wasAcquiring, cam, req, colorCode, codes, formatAtDone) <==> formatAtDone == 7
  {
    Format7ParamsActions(wasAcquiring, cam, req, colorCode, codes);
  }

  /** The actions of the common body: only the requested, supported mode is
      written, the features are refreshed, and the nested `setFormat7Params`
      runs exactly when `formatAtDone` is 7. */
  lemma VideoModeWithFormatActions(wasAcquiring: bool, cam: Camera, mode: int, req: Roi, colorCode: int, codes: Codes,
                                   formatAtDone: int)
    requires Usable(cam.limits)
    ensures var o := SetVideoModeWithFormat(wasAcquiring, cam, mode, req, colorCode, codes, formatAtDone);
      && (forall m :: WriteVideoMode(m) in o.actions ==> m == mode && (cam.format, mode) in cam.modes)
      && RefreshFeatures in o.actions
      && (ReadBackFormat7 in o.actions <==> formatAtDone == 7)
  {
    ModeDoneActions(wasAcquiring, cam, req, colorCode, codes, formatAtDone);
    ModeDoneReadsBack(wasAcquiring, cam, req, colorCode, codes, formatAtDone);
    var done := ModeDone(wasAcquiring, cam, req, colorCode, codes, formatAtDone);
    var halt := Halt(wasAcquiring);
    var o := SetVideoModeWithFormat(wasAcquiring, cam, mode, req, colorCode, codes, formatAtDone);
    if (wasAcquiring && Fails(codes.stop)) || (cam.format, mode) !in cam.modes {
      assert o.actions == halt + done;
    } else {
      assert o.actions == halt + [WriteVideoMode(mode)] + done;
    }
  }

  /** The uninitialised read decides the outcome: with stopping failed, the
      same request on the same Format 7 camera does or does not run the
      nested `setFormat7Params` depending only on what the stack held. When
      it runs, it stops a second time, reads the Format 7 values back and
      starts the camera, so the camera is started twice; its region writes
      do not happen, since the nested stop sees the same failing code. */
  lemma UninitialisedFormatMatters(cam: Camera, mode: int, req: Roi, colorCode: int, codes: Codes)
    requires Usable(cam.limits) && cam.format == 7 && Fails(codes.stop)
    ensures ReadBackFormat7 in SetVideoModeAsWritten(true, cam, mode, req, colorCode, codes, 7).actions
    ensures ReadBackFormat7 !in SetVideoModeAsWritten(true, cam, mode, req, colorCode, codes, 0).actions
    ensures ReadBackFormat7 in SetVideoMode(true, cam, mode, req, colorCode, codes).actions
    ensures SetVideoModeAsWritten(true, cam, mode, req, colorCode, codes, 7).actions
      == [StopCapture, StopCapture, ReadBackFormat7, StartCapture, RefreshValidModes, RefreshFeatures, StartCapture]
    ensures SetVideoModeAsWritten(true, cam, mode, req, colorCode, codes, 0).actions
      == [StopCapture, RefreshValidModes, RefreshFeatures, StartCapture]
  {
    VideoModeWithFormatActions(true, cam, mode, req, colorCode, codes, 7);
    VideoModeWithFormatActions(true, cam, mode, req, colorCode, codes, 0);
  }

  /** `setFrameRate`: an unsupported rate ends the request with the status
      still success; the valid modes and features are always refreshed. */
  function SetFrameRate(wasAcquiring: bool, cam: Camera, rate: int, codes: Codes): (o: Outcome)
    ensures Bracketed(o.actions, wasAcquiring)
    ensures o.status == AsynError <==>
      (wasAcquiring && Fails(codes.stop))
      || (!(wasAcquiring && Fails(codes.stop)) && (cam.format, cam.mode, rate) in cam.rates && Fails(codes.rate))
    ensures forall r :: WriteFrameRate(r) in o.actions ==> r == rate && (cam.format, cam.mode, rate) in cam.rates
    ensures RefreshFeatures in o.actions
  {
    var done := [RefreshValidModes, RefreshFeatures] + Restart(wasAcquiring);
    if wasAcquiring && Fails(codes.stop) then
      Outcome(AsynError, Halt(wasAcquiring) + done)
    else if (cam.format, cam.mode, rate) !in cam.rates then
      Outcome(AsynSuccess, Halt(wasAcquiring) + done)
    else
      Outcome(Translate(codes.rate).status, Halt(wasAcquiring) + [WriteFrameRate(rate)] + done)
  }

  /** An unsupported request is reported differently by the three setters:
      success for a format or a frame rate, an error for a mode. Only when
      stopping did not fail. */
  lemma UnsupportedStatusesDiffer(wasAcquiring: bool, cam: Camera, value: int, req: Roi, colorCode: int, codes: Codes)
    requires Usable(cam.limits) && !(wasAcquiring && Fails(codes.stop))
    requires value !in cam.formats && (cam.format, value) !in cam.modes && (cam.format, cam.mode, value) !in cam.rates
    ensures SetVideoFormat(wasAcquiring, cam, value, req, colorCode, codes).status == AsynSuccess
    ensures SetVideoMode(wasAcquiring, cam, value, req, colorCode, codes).status == AsynError
    ensures SetFrameRate(wasAcquiring, cam, value, codes).status == AsynSuccess
  {
  }
}
