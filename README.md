# FirewireWinDCAM driver core, modelled in Dafny

The FirewireWinDCAM driver is the areaDetector driver for IEEE 1394 (FireWire)
IIDC cameras on Windows. It is built on the CMU 1394Camera library. This project
models the driver's sequential decision and data-shaping logic and proves
properties of it:

- **Errors** (`errors.dfy`, module `CamErrors`): the translation of library
  status codes into an asyn status and a message from the `errMsg` table.
- **C integers** (`cint.dfy`, module `CInt`): `unsigned short` truncation and
  C's truncating `/` and `%`, written out.
- **Pixel layouts** (`layout.dfy`, module `PixelLayouts`): the decode table of
  `grabImage`, from (format, mode) or from the Format 7 colour code to
  (colours, bytes per colour, NDArray type); then the colour mode and the array
  dimensions. A second, independent reading of the same table comes from the
  mode-name and colour-code-name tables.
- **Frame fill** (`fill.dfy`, module `FrameFill`): the `memcpy`/`swab` copy of
  the raw frame into the NDArray buffer, as a method over an `array`.
- **Features** (`features.dfy`, module `Features`):
  - the 22-entry feature table;
  - the packed 12+12-bit feature value, with its range check;
  - the feature-mode check;
  - the `getAllFeatures` loop that writes six entries per address.
- **Format 7 region of interest** (`roi.dfy`, module `Format7Roi`): the
  rounding and clamping of `setFormat7Params`, as a step-by-step method and as
  a reference function.
- **Parameters and run state** (`params.dfy`, `runstate.dfy`, modules `Params`
  and `RunState`): the parameter store as a map, and the acquisition counters
  with the image-mode auto-stop rule.
- **Array lease** (`buffers.dfy`, module `Buffers`): the `pRaw` pointer seen as
  a lease on NDArray pool arrays.
- **Camera setters** (`configuration.dfy`, module `Configuration`):
  `setVideoFormat`, `setVideoMode`, `setFrameRate` and `setFormat7Params`.
  Each is a decision over what the camera reports. It produces the list of
  camera calls it makes and the status it returns.
- **The driver object** (`driver.dfy`, module `Driver`): class
  `FirewireWinDCAM`. Its fields are:
  - the parameter store;
  - the start and stop events, as flags;
  - the stream commands sent to the camera;
  - the lease;
  - the last allocated array.

  The grab thread's `while (1)` loop is cut at the points where it waits:
  `LoopTop`, `Resume` and `GrabCycle`. The user side is `writeInt32`,
  `startCapture` and `stopCapture`.

The camera library is an oracle. What it reports (formats, modes, rates,
limits, feature controls, the raw frame) and the status code of each call are
parameters of the model. The array pool is a flag that says whether `alloc`
returned an array.

Three behaviours of the code that the model keeps as written:

- `setFeatureValue` checks the low sub-value of a packed feature value against
  [min, max] (firewireWinDCAM.cpp:1023), but the high sub-value only against max
  (:1029). See `Features.InRange` and `Features.HighChannelIgnoresMin`.
- `err` logs `errMsg[-code]` (:1656, :1658). For a positive code or one below -16
  that index lies outside the table, so the model gives no message
  (`CamErrors.Translate`).
- The failure tail of the grab loop sets Aborting and stops the camera
  (:496-506), but it does not clear ADAcquire. The loop therefore keeps grabbing
  (`Driver.CycleEffects`).

## Model

| member | source | states |
|---|---|---|
| CamErrors.Translate | ADApp/firewireWinSrc/firewireWinDCAM.cpp:1651-1660 | success exactly for code 0, and then no message; every other code is an error; a message exactly for codes -16..-1, and it is never "Success" |
| CamErrors.FromCode | ADApp/firewireWinSrc/firewireWinDCAM.cpp:142-160 | the named failure a code stands for, as the inverse of `Code`; no name when no failure has that code |
| CamErrors.TranslateAgreesWithNames | ADApp/firewireWinSrc/firewireWinDCAM.cpp:142-160 | every code of the table is an error, logged with its failure's name, or "Unknown error" for the unnamed codes -2..-9 |
| CamErrors.CodeRoundTrip | ADApp/firewireWinSrc/firewireWinDCAM.cpp:142-160 | decoding the code of a named failure gives that failure back |
| CInt.UShort | ADApp/firewireWinSrc/firewireWinDCAM.cpp:642-643 | the `unsigned short` cast: a value in [0, 65536) congruent to the input, the identity on that range |
| CInt.CDiv | ADApp/firewireWinSrc/firewireWinDCAM.cpp:1267-1270 | C division by a positive divisor truncates toward zero: the remainder has the sign of the dividend and is smaller than the divisor |
| CInt.CMod | ADApp/firewireWinSrc/firewireWinDCAM.cpp:1267-1270 | C remainder: sign of the dividend, below the divisor in magnitude, and `a == CDiv(a, b) * b + r` |
| PixelLayouts.Format7Layout | ADApp/firewireWinSrc/firewireWinDCAM.cpp:600-639 | a Format 7 colour code decodes exactly when it is one of the 11 codes (0..10); every decoded layout has 1 or 3 colours of 1 or 2 bytes |
| PixelLayouts.PresetLayout | ADApp/firewireWinSrc/firewireWinDCAM.cpp:646-708 | a fixed format decodes exactly for format 0 modes 0-6 and formats 1-2 modes 0-7; formats 3-6 and format 0 mode 7 are unsupported; decoded layouts are well formed |
| PixelLayouts.FrameLayout | ADApp/firewireWinSrc/firewireWinDCAM.cpp:597-717 | Format 7 decodes by colour code, any other format by (format, mode), with the exact sets of accepted inputs |
| PixelLayouts.PresetLayoutMatchesModeNames | ADApp/firewireWinSrc/firewireWinDCAM.cpp:173-181 | the fixed-format table decodes exactly the modes whose name gives a pixel coding, each with that coding's channels, sample width and element type |
| PixelLayouts.Format7LayoutMatchesCodeNames | ADApp/firewireWinSrc/firewireWinDCAM.cpp:195-207 | the Format 7 table decodes exactly the named colour codes, each as its name describes |
| PixelLayouts.Rgb16Quirks | ADApp/firewireWinSrc/firewireWinDCAM.cpp:626-635 | RGB16 decodes to NDUInt8 and RGB16_Signed to NDInt8, both with 2 bytes per colour |
| PixelLayouts.ElementWidths | ADApp/firewireWinSrc/firewireWinDCAM.cpp:600-708 | a mono element is one sample wide; colour elements are one byte; the element width differs from the sample width exactly for the two 16-bit colour codes |
| PixelLayouts.DataTypeCode | ADApp/firewireWinSrc/firewireWinDCAM.cpp:721 | `NDDataType_t` values lie in 0..3, and the odd values are exactly the unsigned types |
| PixelLayouts.ChooseColorMode | ADApp/firewireWinSrc/firewireWinDCAM.cpp:722-730 | RGB1 exactly for three colours; for one colour, Bayer exactly when Bayer is already set, Mono otherwise |
| PixelLayouts.ArrayDims | ADApp/firewireWinSrc/firewireWinDCAM.cpp:731-740 | two dimensions [sizeX, sizeY] for one colour, three with the colours first for three |
| PixelLayouts.ArrayDimsCount | ADApp/firewireWinSrc/firewireWinDCAM.cpp:731-742 | the dimensions multiply out to colours × sizeX × sizeY |
| PixelLayouts.ColorModeMatchesDims | ADApp/firewireWinSrc/firewireWinDCAM.cpp:722-740 | the colour mode is RGB1 exactly when the array has three dimensions, and then the first dimension is the colour count |
| FrameFill.SwapPairs | ADApp/firewireWinSrc/firewireWinDCAM.cpp:766 | `swab` writes the length rounded down to whole pairs |
| FrameFill.SwapPairsAt | ADApp/firewireWinSrc/firewireWinDCAM.cpp:766 | byte `i` of a swapped block is the partner byte of its pair in the original |
| FrameFill.SwapPairsInvolution | ADApp/firewireWinSrc/firewireWinDCAM.cpp:761-766 | swapping an even-length block twice gives it back |
| FrameFill.CopyLength | ADApp/firewireWinSrc/firewireWinDCAM.cpp:760 | the copied length is the raw length clamped to the buffer size: at most both, and equal to one of them |
| FrameFill.FilledAt | ADApp/firewireWinSrc/firewireWinDCAM.cpp:759-767 | byte by byte: inside the written prefix the raw byte (its pair partner when swapping), past it the old contents |
| FrameFill.UnswappedIsPrefixCopy | ADApp/firewireWinSrc/firewireWinDCAM.cpp:763-764 | without a swap the buffer starts with the clamped raw prefix and the rest is unchanged |
| FrameFill.SixteenBitSamplesPreserved | ADApp/firewireWinSrc/firewireWinDCAM.cpp:761-767 | on either kind of host, every 16-bit sample wholly inside the copied length reads in memory as the big-endian value the camera sent |
| FrameFill.FillBuffer | ADApp/firewireWinSrc/firewireWinDCAM.cpp:759-767 | returns the clamped length; the buffer becomes `Filled` of its old contents, swapped exactly for 2-byte samples on a little-endian host |
| Features.Unpack | ADApp/firewireWinSrc/firewireWinDCAM.cpp:1019-1020 | lo and hi are each in [0, 4096), and lo + hi·4096 agrees with the value modulo 2^24 (two's-complement bit masks) |
| Features.PackUnpack | ADApp/firewireWinSrc/firewireWinDCAM.cpp:1515 | packing an unpacked 24-bit value gives the value back |
| Features.UnpackPack | ADApp/firewireWinSrc/firewireWinDCAM.cpp:1019-1020 | unpacking lo + (hi << 12) gives back (lo, hi) for 12-bit lo and hi |
| Features.SingleChannelRange | ADApp/firewireWinSrc/firewireWinDCAM.cpp:1023-1034 | a value below 4096 is accepted exactly when it lies in [min, max] |
| Features.HighChannelIgnoresMin | ADApp/firewireWinSrc/firewireWinDCAM.cpp:1029-1034 | hi is not checked against min: with range [10, 100], the value 50 (hi 0) is accepted |
| Features.WhiteBalanceMaxBoundsAccepted | ADApp/firewireWinSrc/firewireWinDCAM.cpp:1520-1521 | the reported white-balance max (max << 12) + max bounds every accepted 24-bit value; it is itself accepted and unpacks to (max, max) |
| Features.SetFeatureValue | ADApp/firewireWinSrc/firewireWinDCAM.cpp:1000-1041 | a feature that fails `checkFeature` gives success and no write; otherwise the unpacked pair is written exactly when in range; error exactly when out of range or the library fails |
| Features.SetFeatureMode | ADApp/firewireWinSrc/firewireWinDCAM.cpp:974-997 | the mode is written exactly when the feature exists and supports it (manual for 0, auto otherwise); every refusal is an error; a write carries the library's status |
| Features.MissingFeatureStatuses | ADApp/firewireWinSrc/firewireWinDCAM.cpp:1010-1011 | for a missing feature the value setter reports success and the mode setter an error |
| Features.WriteFeatureValue | ADApp/firewireWinSrc/firewireWinDCAM.cpp:836-848 | error exactly when the stored mode is not manual and switching to manual fails, and then no value write and no refresh; otherwise the value setter's write and a refresh |
| Features.RangeErrorHidden | ADApp/firewireWinSrc/firewireWinDCAM.cpp:844-847 | an out-of-range value makes the setter fail, yet the request reports success, because the refresh's status overwrites it |
| Features.WriteEntries | ADApp/firewireWinSrc/firewireWinDCAM.cpp:1512-1534 | the six integer entries of one address are `FeatureEntry`; every other entry is unchanged |
| Features.Refresh | ADApp/firewireWinSrc/firewireWinDCAM.cpp:1501-1534 | after the loop, every address 0..21 holds its feature's six entries, the rest of the store is unchanged, and the status is success |
| Features.AbsentIffMinusOne | ADApp/firewireWinSrc/firewireWinDCAM.cpp:1510-1534 | -1 in a value, range or mode entry marks exactly the absent features; availability is 1 or 0 accordingly |
| Features.AcceptedValueReadsBack | ADApp/firewireWinSrc/firewireWinDCAM.cpp:1036 | an accepted 24-bit value that the camera keeps is read back by the refresh as the same value |
| Features.RefreshedValueUnpacks | ADApp/firewireWinSrc/firewireWinDCAM.cpp:1514-1515 | the refreshed value unpacks to the camera's (lo, hi) when both fit in 12 bits |
| Format7Roi.PosMax | ADApp/firewireWinSrc/firewireWinDCAM.cpp:1260-1261 | the largest offset is an `unsigned short`, equal to sizeMax − posLimit when that does not wrap |
| Format7Roi.RoundToUnit | ADApp/firewireWinSrc/firewireWinDCAM.cpp:1267-1270 | the result is a multiple of the unit, lies between 0 and the value, is less than one unit from it, and equals the value when that is already a multiple |
| Format7Roi.NormaliseRoi | ADApp/firewireWinSrc/firewireWinDCAM.cpp:1259-1280 | the step-by-step rounding and clamping gives `Normalised`, with sizes at most the maxima, at least one unit whenever the unit fits under the maximum, and offsets in [0, largest offset] |
| Format7Roi.AdmissibleUnchanged | ADApp/firewireWinSrc/firewireWinDCAM.cpp:1266-1280 | a region already aligned and in range is left unchanged |
| Format7Roi.NormalisedIsAligned | ADApp/firewireWinSrc/firewireWinDCAM.cpp:1266-1280 | each coordinate is a multiple of its unit unless it was clamped to a maximum |
| Format7Roi.NormalisedAdmissible | ADApp/firewireWinSrc/firewireWinDCAM.cpp:1266-1280 | when the maxima are aligned and at least one unit, the result is within hsUnit ≤ sizeX ≤ hsMax etc. and aligned, and normalising again changes nothing |
| Format7Roi.NotIdempotentWhenMaxUnaligned | ADApp/firewireWinSrc/firewireWinDCAM.cpp:1272-1273 | with an unaligned maximum (10, unit 4) the width 100 becomes 10, and 10 becomes 8 |
| RunState.Set | ADApp/firewireWinSrc/firewireWinDCAM.cpp:813 | the entry written reads back as the value written |
| RunState.Started | ADApp/firewireWinSrc/firewireWinDCAM.cpp:484-485 | a start resets ADNumImagesCounter to 0 and sets ADAcquire |
| RunState.CountFrame | ADApp/firewireWinSrc/firewireWinDCAM.cpp:509-517 | a frame advances NDArrayCounter and ADNumImagesCounter by exactly 1 |
| RunState.AfterFrame | ADApp/firewireWinSrc/firewireWinDCAM.cpp:509-549 | both counters +1; ADAcquire cleared exactly when the auto-stop rule holds on the counted store, otherwise unchanged |
| RunState.OnlyNamedEntriesChange | ADApp/firewireWinSrc/firewireWinDCAM.cpp:509-549 | each update leaves every entry it does not name unchanged, at every address |
| RunState.StopRuleByMode | ADApp/firewireWinSrc/firewireWinDCAM.cpp:544-548 | Single mode always clears ADAcquire, Continuous never touches it, Multiple clears it exactly once counter + 1 ≥ numImages |
| RunState.FramesCount | ADApp/firewireWinSrc/firewireWinDCAM.cpp:509-517 | over k frames both counters advance by exactly k, and the mode and number of images stay |
| RunState.MultipleRunLength | ADApp/firewireWinSrc/firewireWinDCAM.cpp:544-548 | a Multiple run of n images keeps ADAcquire for n − 1 frames and clears it at the n-th |
| RunState.ContinuousRunNeverStops | ADApp/firewireWinSrc/firewireWinDCAM.cpp:544 | in Continuous mode no number of frames clears ADAcquire |
| Buffers.ReleaseAndClear | ADApp/firewireWinSrc/firewireWinDCAM.cpp:540-541 | the release appends the held array to the releases and leaves the pointer clear |
| Buffers.StepsKeepSound | ADApp/firewireWinSrc/firewireWinDCAM.cpp:540-541 | allocation, failed allocation and release-and-clear each keep the lease sound (no double release, no pointer to a released array) |
| Buffers.RunStaysSound | ADApp/firewireWinSrc/firewireWinDCAM.cpp:742-752 | any sequence of those steps keeps the lease sound |
| Buffers.ReleaseKeepingPointer | ADApp/firewireWinSrc/firewireWinDCAM.cpp:500 | the failure path as written releases the held array but keeps the pointer, which leaves the lease unsound |
| Buffers.DoubleReleaseWitness | ADApp/firewireWinSrc/firewireWinDCAM.cpp:496-506 | two failed passes in a row after an allocation release array 0 twice |
| Configuration.Format7Writes | ADApp/firewireWinSrc/firewireWinDCAM.cpp:1286-1304 | the colour code is written first; error exactly when one of the four writes fails; the region written is the one given |
| Configuration.Format7WritesOrder | ADApp/firewireWinSrc/firewireWinDCAM.cpp:1286-1304 | the writes made are a prefix of colour code, position, size, bytes per packet; all but the last succeeded; the sequence is cut short only by a failure; the status is the last write's |
| Configuration.SetFormat7Params | ADApp/firewireWinSrc/firewireWinDCAM.cpp:1215-1322 | a running acquisition is stopped first and restarted last, an idle one never is; error exactly when the stop fails, or the camera is in Format 7 and a write fails |
| Configuration.Format7ParamsActions | ADApp/firewireWinSrc/firewireWinDCAM.cpp:1306-1320 | the values are always read back, and nothing but stop, start, read-back and region writes happens |
| Configuration.Format7ParamsWritesRoi | ADApp/firewireWinSrc/firewireWinDCAM.cpp:1238-1304 | the region is written exactly when the camera is in Format 7 and the stop did not fail |
| Configuration.Format7ParamsWritesNormalised | ADApp/firewireWinSrc/firewireWinDCAM.cpp:1266-1292 | the size and position written are the normalised request |
| Configuration.AfterFormatWrite | ADApp/firewireWinSrc/firewireWinDCAM.cpp:1116-1122 | the part after a format write ends with the feature refresh and neither stops nor starts an idle camera |
| Configuration.AfterFormatWriteActions | ADApp/firewireWinSrc/firewireWinDCAM.cpp:1116-1122 | it never writes a format, and reads the Format 7 values back exactly when the new format is 7 |
| Configuration.SetVideoFormat | ADApp/firewireWinSrc/firewireWinDCAM.cpp:1089-1127 | bracketed; error exactly when the stop fails or a supported format's write fails; an unsupported format is success; only the requested, supported format is written; features refreshed exactly after a successful write |
| Configuration.Format7SwitchRestartsTwice | ADApp/firewireWinSrc/firewireWinDCAM.cpp:1096-1125 | switching a running camera to Format 7 stops it twice and starts it twice, once for the nested Format 7 update |
| Configuration.SetVideoMode | ADApp/firewireWinSrc/firewireWinDCAM.cpp:1129-1171 | bracketed; error exactly when the stop fails, the mode is unsupported for the current format, or the write fails |
| Configuration.VideoModeActions | ADApp/firewireWinSrc/firewireWinDCAM.cpp:1144-1167 | only the requested, supported mode is written; the features are always refreshed; Format 7 values are read back exactly when the camera is in Format 7 |
| Configuration.SetVideoModeAsWritten | ADApp/firewireWinSrc/firewireWinDCAM.cpp:1138-1162 | the code as written: identical to the corrected setter whenever the stop does not fail |
| Configuration.SetVideoModeWithFormat | ADApp/firewireWinSrc/firewireWinDCAM.cpp:1129-1171 | the common body: bracketed, with the same error condition, whatever format the `done` label tests |
| Configuration.ModeDone | ADApp/firewireWinSrc/firewireWinDCAM.cpp:1160-1169 | the `done` part ends with the restart of a running camera and neither stops nor starts an idle one |
| Configuration.ModeDoneActions | ADApp/firewireWinSrc/firewireWinDCAM.cpp:1160-1167 | the `done` part never writes a mode and always refreshes the features |
| Configuration.ModeDoneReadsBack | ADApp/firewireWinSrc/firewireWinDCAM.cpp:1162 | the `done` part reads Format 7 values back exactly when the format it tests is 7 |
| Configuration.VideoModeWithFormatActions | ADApp/firewireWinSrc/firewireWinDCAM.cpp:1137-1169 | only the requested, supported mode is written; features refreshed; read-back exactly when the tested format is 7 |
| Configuration.UninitialisedFormatMatters | ADApp/firewireWinSrc/firewireWinDCAM.cpp:1140-1162 | with the stop failed, the same request on the same camera runs the nested `setFormat7Params` or not depending only on the uninitialised `format`: when it runs, a second stop, the read-back of position, size and colour code and a second start, so a running camera is started twice; the exact action lists of both cases |
| Configuration.SetFrameRate | ADApp/firewireWinSrc/firewireWinDCAM.cpp:1173-1213 | bracketed; error exactly when the stop fails or a supported rate's write fails; an unsupported rate is success; only the requested, supported rate is written; features always refreshed |
| Configuration.UnsupportedStatusesDiffer | ADApp/firewireWinSrc/firewireWinDCAM.cpp:1103-1106 | an unsupported request is success for a format or rate and an error for a mode |
| Driver.FrameSize | ADApp/firewireWinSrc/firewireWinDCAM.cpp:641-643 | the frame size is an `unsigned short` pair, equal to the library's size when that fits |
| Driver.Published | ADApp/firewireWinSrc/firewireWinDCAM.cpp:719-730 | size, data type and chosen colour mode are published; counters, acquire, callbacks, image mode and number of images are untouched |
| Driver.ArrayBytes | ADApp/firewireWinSrc/firewireWinDCAM.cpp:731-742 | the allocated byte size is one element of the layout's type for every entry the array's dimensions span |
| Driver.AfterGrab | ADApp/firewireWinSrc/firewireWinDCAM.cpp:564-791 | `grabImage` leaves the counters, acquire, callbacks, image mode and number of images alone |
| Driver.CycleLeaseSound | ADApp/firewireWinSrc/firewireWinDCAM.cpp:495-541 | one pass keeps the lease sound and the pointer clear; it releases exactly the array it allocated, if any |
| Driver.CycleCommandsShape | ADApp/firewireWinSrc/firewireWinDCAM.cpp:495-555 | a pass only appends stops (at most two); a failed pass ends with a stop; a successful one adds one stop exactly when it ends the run |
| Driver.CycleEffects | ADApp/firewireWinSrc/firewireWinDCAM.cpp:491-549 | a failed pass sets Aborting and leaves the counters and acquire alone; a successful one sets Readout, advances both counters by 1, publishes the size, and clears acquire exactly in Single mode or Multiple mode at the last image |
| Driver.FirewireWinDCAM.constructor | ADApp/firewireWinSrc/firewireWinDCAM.cpp:402-408 | data type UInt8, Continuous mode, 100 images, then every feature entry read from the camera and nothing else set; no events, commands or lease |
| Driver.FirewireWinDCAM.StartCapture | ADApp/firewireWinSrc/firewireWinDCAM.cpp:1576-1604 | the stream is started; on failure acquire is cleared and no start event, on success the start event |
| Driver.FirewireWinDCAM.StopCapture | ADApp/firewireWinSrc/firewireWinDCAM.cpp:1607-1642 | the stop event is consumed (a timeout when it was not set), the stream is stopped whatever the wait gave, and the status is the stop's |
| Driver.FirewireWinDCAM.WriteAcquire | ADApp/firewireWinSrc/firewireWinDCAM.cpp:809-827 | the value is stored at the request's address (negative taken as 0); a non-zero value starts the camera only when the status at address 0 is idle, zero always stops it; a failed start clears Acquire at address 0; the events in each case |
| Driver.FirewireWinDCAM.WriteParam | ADApp/firewireWinSrc/firewireWinDCAM.cpp:809-813 | the value is stored at the address, a negative address taken as 0 |
| Driver.FirewireWinDCAM.GetAllFeatures | ADApp/firewireWinSrc/firewireWinDCAM.cpp:1490-1534 | the 22 addresses get their feature entries, nothing else changes, status success |
| Driver.FirewireWinDCAM.WriteFeatureMode | ADApp/firewireWinSrc/firewireWinDCAM.cpp:850-852 | the mode is stored and the status is `setFeatureMode`'s |
| Driver.FirewireWinDCAM.WriteFeatureVal | ADApp/firewireWinSrc/firewireWinDCAM.cpp:836-848 | the value is stored, the request is `WriteFeatureValue` on the stored mode, and after a refresh every feature entry is what the camera then reports while every other entry keeps the stored value |
| Driver.FirewireWinDCAM.LoopTop | ADApp/firewireWinSrc/firewireWinDCAM.cpp:456-471 | with acquire clear: Idle, the stop event signalled unless this is the first pass after the thread's own stop, waiting for start; otherwise straight to the grab |
| Driver.FirewireWinDCAM.Resume | ADApp/firewireWinSrc/firewireWinDCAM.cpp:480-485 | the start event is consumed and the run counters restart |
| Driver.FirewireWinDCAM.FillFrame | ADApp/firewireWinSrc/firewireWinDCAM.cpp:755-778 | a fresh zeroed array of the right size; mono and Bayer frames get the raw fill, RGB1 frames the conversion's status |
| Driver.FirewireWinDCAM.Deliver | ADApp/firewireWinSrc/firewireWinDCAM.cpp:719-791 | publish, then allocate; no array gives Aborting, a stop (the stop event consumed), an error and the last array untouched; otherwise the array is filled, Readout, and the status is the conversion's |
| Driver.FirewireWinDCAM.GrabImage | ADApp/firewireWinSrc/firewireWinDCAM.cpp:564-791 | a failed acquire or unsupported layout returns an error before any store change or allocation; success exactly for a decoded frame with an array and a working conversion; the stop event is consumed exactly when the pool has no array; without a new array the last one is untouched |
| Driver.FirewireWinDCAM.AbortFrame | ADApp/firewireWinSrc/firewireWinDCAM.cpp:496-506 | the failure tail with the pointer cleared after the release (the corrected tail of the :500 finding): Aborting, stream stopped, stop event consumed |
| Driver.FirewireWinDCAM.FinishFrame | ADApp/firewireWinSrc/firewireWinDCAM.cpp:509-555 | the frame counted, its unique id the new array counter, delivered when callbacks are on, released, and the run ended (stream stopped, stop event consumed) when the mode says so |
| Driver.FirewireWinDCAM.BeginPass | ADApp/firewireWinSrc/firewireWinDCAM.cpp:491-493 | Waiting, then the grab: store as `AfterGrab` of the Waiting store, success exactly when the grab succeeds, the stop event consumed exactly when `grabImage` stops the camera, the last array untouched when none was allocated |
| Driver.FirewireWinDCAM.EndPass | ADApp/firewireWinSrc/firewireWinDCAM.cpp:494-551 | the tail the grab's status selects, from the store the pass started with: the array released and the pointer cleared on both tails (the corrected tail of the :500 finding on failure); store as `AfterCycle`, a stop exactly on failure or at the end of the run, deliveries as `CycleDelivered`, the stop event surviving only a successful pass that does not end the run, unique id the new counter on success |
| Driver.FirewireWinDCAM.GrabCycle | ADApp/firewireWinSrc/firewireWinDCAM.cpp:488-555 | one pass of the loop: store, lease, commands and deliveries as `AfterCycle`, `CycleLease`, `CycleCommands` and `CycleDelivered`; the stop event survives exactly a successful pass that does not end the run; unique id the new counter on success and unchanged otherwise; the last array untouched when none was allocated |

## Left out

- Threads, the mutex, `callParamCallbacks` and the 3-second timeout of the stop wait: their purpose is concurrency. The events are flags, and the loop is cut into methods at its waits. `StopCapture` takes a set stop event or otherwise reports a timeout.
- Floating-point paths are left out: `setFeatureAbsValue`, the absolute-value part of `getAllFeatures` (only the absolute flag is stored), the acquire-time floor of `startCapture`, `writeFloat64` and the frame time stamp.
- Calls into the camera library are oracle inputs, one status code per kind of call and request: `AcquireImageEx`, `getRGB` (it writes the RGB array, and its output is not modelled), `Start/StopImageAcquisition`, the setters, and the bytes-per-packet query. A nested call of the same kind, such as the second stop in a Format 7 switch, sees the same code.
- Camera enumeration and GUID matching in the constructor are device I/O.
- `formatFormat7Modes`, `formatValidModes`, `report`, `drvUserCreate` and the parameter-name table are string formatting and framework lookup. They appear only as the `RefreshValidModes` action.
- `drvFirewireWinDCAM.c` registration glue is not part of this model.
- The camera setters are pure functions from what the camera reports to a list of actions and a status. The read-back of `setFormat7Params` is one action and does not update the store.
- Params.Get: a parameter never written reads as 0, where the parameter library would report an error.
- RunState.CountFrame: the counters are unbounded integers; `epicsInt32` overflow after 2^31 frames is not modelled.
- Driver.FirewireWinDCAM.GrabCycle: it follows the corrected failure tail of the :500 finding, so the pointer is clear after every pass and it requires a clear pointer; the code as written can enter a pass with the pointer still set, which `Buffers.ReleaseKeepingPointer` models. It requires and ensures only that the pointer is clear; lease soundness across a pass is the separate lemma `Driver.CycleLeaseSound`.
- Driver.FirewireWinDCAM.AbortFrame: it follows the corrected failure tail of the :500 finding and clears the pointer after the release; `Buffers.ReleaseKeepingPointer` is the form as written.
- Driver.FirewireWinDCAM.EndPass: its failure branch is `AbortFrame`, so it follows the corrected failure tail of the :500 finding and clears the pointer after the release; `Buffers.ReleaseKeepingPointer` is the form as written.
- Driver.CycleLeaseSound: it is about the corrected failure tail of the :500 finding; `Buffers.ReleaseKeepingPointer` is the form as written, and `Buffers.DoubleReleaseWitness` shows where that leads.
- Format7Roi.Usable: a zero size or position unit from the camera is a division by zero at :1267-1270, which C leaves undefined; the model requires non-zero units, so such a camera is outside it.
- Driver.FirewireWinDCAM.GrabImage: the full contents of a colour (RGB1) array come from `getRGB` and are not stated.
- FrameFill.CopyLength: it always clamps the raw length to the array size. The code compares `(int)dataLength` with the array's `dataSize` (:760), so a reported length of 2^31 or more turns negative in the cast and skips the clamp; that wrap is not modelled.
- Driver.FirewireWinDCAM.FillFrame: a pool array is modelled as zero-filled when allocated; a reused pool array would hold old data past the copied length.

## Findings

| source | as written | input that shows it | evidently intended | confidence | as-written member | corrected member |
|---|---|---|---|---|---|---|
| ADApp/firewireWinSrc/firewireWinDCAM.cpp:500 | the failure path releases `pRaw` but does not set it to NULL | a colour frame whose `getRGB` fails after an array was allocated, then an `AcquireImageEx` failure on the next pass: the same array is released twice | clear the pointer after the release, as the success path does at :540-541 | medium, not executed | Buffers.ReleaseKeepingPointer, Buffers.DoubleReleaseWitness | Buffers.ReleaseAndClear, Buffers.RunStaysSound, Driver.CycleLeaseSound, Driver.FirewireWinDCAM.AbortFrame, Driver.FirewireWinDCAM.EndPass, Driver.FirewireWinDCAM.GrabCycle |
| ADApp/firewireWinSrc/firewireWinDCAM.cpp:1162 | after a failed stop, `goto done` skips the read of the current format, and `done` tests the uninitialised local `format` | `setVideoMode` on a running Format 7 camera whose stop fails: whether the nested `setFormat7Params` runs (a second stop, the read-back, a second start) depends on stack contents; in the code the second `stopCapture` may succeed and the region is then written, while the model, where a nested call sees the same code, shows only the stop, read-back and restart | read the format before the first `goto`, or test it only when it was read | medium, not executed | Configuration.SetVideoModeAsWritten, Configuration.UninitialisedFormatMatters | Configuration.SetVideoMode, Configuration.VideoModeActions |
