/** Translation of camera-library status codes into asyn status and a log
    message (`FirewireWinDCAM::err` and the `errMsg` table). */
module CamErrors {
  import opened Options

  /** The two asyn status values the driver produces. */
  datatype AsynStatus = AsynSuccess | AsynError

  /** Message table indexed by the negated library code. */
  const ErrMsg: seq<string> := [
    "Success",                  //   0
    "Generic error",            //  -1
    "Unknown error",            //  -2
    "Unknown error",            //  -3
    "Unknown error",            //  -4
    "Unknown error",            //  -5
    "Unknown error",            //  -6
    "Unknown error",            //  -7
    "Unknown error",            //  -8
    "Unknown error",            //  -9
    "Unsupported",              // -10
    "Not initialized",          // -11
    "Invalid video settings",   // -12
    "Busy",                     // -13
    "Insufficient resources",   // -14
    "Param out of range",       // -15
    "Frame timeout"             // -16
  ]

  /** The lowest code the table describes. */
  const LowestCode := -16

  /** What `err` reports: a status, and the message it logs (None when it
      logs nothing, or when the code lies outside the table). */
  datatype Translation = Translation(status: AsynStatus, message: Option<string>)

  /** `err(pasynUser, code, line)`: code 0 is swallowed; any other code is an
      error, logged with `errMsg[-code]` when that entry exists. */
  function Translate(code: int): (t: Translation)
    ensures t.status == AsynSuccess <==> code == 0
    ensures t.status == AsynSuccess ==> t.message == None
    ensures t.message.Some? <==> LowestCode <= code <= -1
    ensures t.message.Some? ==> t.message.value != "Success"
  {
    if code == 0 then Translation(AsynSuccess, None)
    else if LowestCode <= code <= -1 then Translation(AsynError, Some(ErrMsg[-code]))
    else Translation(AsynError, None)
  }

  /** A library call failed: `err` turns its code into an error status. */
  predicate Fails(code: int) {
    Translate(code).status == AsynError
  }

  /** The named failures of the camera library that the table distinguishes;
      codes -2 to -9 have no name and read "Unknown error". */
  datatype CamError =
    | GenericError | Unsupported | NotInitialized | InvalidVideoSettings
    | Busy | InsufficientResources | ParamOutOfRange | FrameTimeout

  function Code(e: CamError): (c: int)
    ensures LowestCode <= c <= -1
  {
    match e
    case GenericError => -1
    case Unsupported => -10
    case NotInitialized => -11
    case InvalidVideoSettings => -12
    case Busy => -13
    case InsufficientResources => -14
    case ParamOutOfRange => -15
    case FrameTimeout => -16
  }

  function Describe(e: CamError): string {
    match e
    case GenericError => "Generic error"
    case Unsupported => "Unsupported"
    case NotInitialized => "Not initialized"
    case InvalidVideoSettings => "Invalid video settings"
    case Busy => "Busy"
    case InsufficientResources => "Insufficient resources"
    case ParamOutOfRange => "Param out of range"
    case FrameTimeout => "Frame timeout"
  }

  /** The inverse of `Code`: which named failure a code stands for. */
  function FromCode(c: int): (r: Option<CamError>)
    ensures r.Some? ==> Code(r.value) == c
    ensures r.None? ==> forall e: CamError :: Code(e) != c
  {
    if c == -1 then Some(GenericError)
    else if c == -10 then Some(Unsupported)
    else if c == -11 then Some(NotInitialized)
    else if c == -12 then Some(InvalidVideoSettings)
    else if c == -13 then Some(Busy)
    else if c == -14 then Some(InsufficientResources)
    else if c == -15 then Some(ParamOutOfRange)
    else if c == -16 then Some(FrameTimeout)
    else None
  }

  /** Every code of the table is reported as an error with the message its
      name gives, and the unnamed codes with "Unknown error". */
  lemma TranslateAgreesWithNames(c: int)
    requires LowestCode <= c <= -1
    ensures Translate(c).status == AsynError
    ensures Translate(c).message ==
      Some(if FromCode(c).Some? then Describe(FromCode(c).value) else "Unknown error")
  {
    assert ErrMsg[1] == "Generic error";
  }

  lemma CodeRoundTrip(e: CamError)
    ensures FromCode(Code(e)) == Some(e)
  {
  }
}
