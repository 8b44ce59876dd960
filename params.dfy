/** The slice of the areaDetector parameter library the driver's core reads
    and writes: a map from (address, parameter) to an integer value. */
module Params {

  datatype Param =
    | Acquire | DetectorStatus | ArrayCounter | NumImagesCounter
    | ImageMode | NumImages | ArrayCallbacks
    | ArraySizeX | ArraySizeY | DataType | ColorMode
    | FeatVal | FeatValMin | FeatValMax | FeatMode | FeatAvailable | FeatAbsolute

  type Store = map<(int, Param), int>

  /** `getIntegerParam(addr, p)`; a parameter never written reads as 0. */
  function Get(s: Store, addr: int, p: Param): int {
    if (addr, p) in s then s[(addr, p)] else 0
  }

  // ADStatus values written by the driver.
  const StatusIdle := 0
  const StatusReadout := 2
  const StatusAborting := 5
  const StatusWaiting := 7

  // ADImageMode values.
  const ImageSingle := 0
  const ImageMultiple := 1
  const ImageContinuous := 2
}
