/** The region-of-interest normalisation that `setFormat7Params` applies to a
    requested Format 7 size and position before writing them to the camera. */
module Format7Roi {
  import opened CInt

  /** A requested or normalised region: size and top-left corner, in pixels. */
  datatype Roi = Roi(sizeX: int, sizeY: int, minX: int, minY: int)

  /** The limits the camera library reports, as `unsigned short`s: maximum
      size, size increment, position limit and position increment per axis.
      The library's position limit is the size left over at the largest
      offset, so the largest offset is `sizeMax - posLimit`. */
  datatype Limits = Limits(
    hsMax: int, vsMax: int, hsUnit: int, vsUnit: int,
    hpLimit: int, vpLimit: int, hpUnit: int, vpUnit: int)

  predicate IsUShort(v: int) { 0 <= v < 0x1_0000 }

  /** Ranges of the library's types; the increments are divisors, so the
      source needs them non-zero. */
  predicate Usable(lim: Limits) {
    && IsUShort(lim.hsMax) && IsUShort(lim.vsMax)
    && IsUShort(lim.hpLimit) && IsUShort(lim.vpLimit)
    && 0 < lim.hsUnit < 0x1_0000 && 0 < lim.vsUnit < 0x1_0000
    && 0 < lim.hpUnit < 0x1_0000 && 0 < lim.vpUnit < 0x1_0000
  }

  /** The largest offset, computed in `unsigned short` and so wrapping when
      the reported limit exceeds the maximum size. */
  function PosMax(sizeMax: int, posLimit: int): (m: int)
    ensures IsUShort(m)
    ensures 0 <= posLimit <= sizeMax < 0x1_0000 ==> m == sizeMax - posLimit
  {
    UShort(sizeMax - posLimit)
  }

  /** A value that is not a multiple of `unit` drops to the multiple nearer
      zero (C's truncating division). */
  function RoundToUnit(v: int, unit: int): (r: int)
    requires unit > 0
    ensures CMod(r, unit) == 0
    ensures 0 <= v ==> 0 <= r <= v && v - r < unit
    ensures v < 0 ==> v <= r <= 0 && r - v < unit
    ensures CMod(v, unit) == 0 ==> r == v
  {
    if CMod(v, unit) != 0 then
      var q := CDiv(v, unit);
      MultipleCMod(q, unit);
      assert v == q * unit + CMod(v, unit);
      assert 0 <= v ==> 0 <= q * unit by {
        if 0 <= v { assert 0 <= q; }
      }
      assert v < 0 ==> q * unit <= 0 by {
        if v < 0 { assert q <= 0; }
      }
      q * unit
    else v
  }

  /** A multiple of `unit` has C remainder zero. */
  lemma MultipleCMod(q: int, unit: int)
    requires unit > 0
    ensures CMod(q * unit, unit) == 0
  {
    var v := q * unit;
    var r := CMod(v, unit);
    assert (v - r) % unit == 0;
    MultipleMod(q, unit);
    ModOfDifference(v, v - r, unit);
    var k := r / unit;
    assert r == k * unit;
    if k >= 1 {
      assert false;
    } else if k <= -1 {
      assert false;
    }
  }

  /** Two multiples of `unit` differ by a multiple of `unit`. */
  lemma ModOfDifference(a: int, b: int, unit: int)
    requires unit > 0 && a % unit == 0 && b % unit == 0
    ensures (a - b) % unit == 0
  {
    var i, j := a / unit, b / unit;
    assert a == i * unit && b == j * unit;
    assert a - b == (i - j) * unit;
    MultipleMod(i - j, unit);
  }

  function Min(a: int, b: int): int { if a <= b then a else b }
  function Max(a: int, b: int): int { if a <= b then b else a }

  /** The reference definition: round each coordinate, then hold a size to
      [unit, max] and an offset to [0, largest offset], the upper bound
      winning when the two cross. */
  function Normalised(req: Roi, lim: Limits): (r: Roi)
    requires Usable(lim)
  {
    Roi(
      Min(Max(RoundToUnit(req.sizeX, lim.hsUnit), lim.hsUnit), lim.hsMax),
      Min(Max(RoundToUnit(req.sizeY, lim.vsUnit), lim.vsUnit), lim.vsMax),
      Min(Max(RoundToUnit(req.minX, lim.hpUnit), 0), PosMax(lim.hsMax, lim.hpLimit)),
      Min(Max(RoundToUnit(req.minY, lim.vpUnit), 0), PosMax(lim.vsMax, lim.vpLimit)))
  }

  /** A region the camera can take: every coordinate inside its range and a
      multiple of its increment. */
  predicate Admissible(roi: Roi, lim: Limits)
    requires Usable(lim)
  {
    && lim.hsUnit <= roi.sizeX <= lim.hsMax && CMod(roi.sizeX, lim.hsUnit) == 0
    && lim.vsUnit <= roi.sizeY <= lim.vsMax && CMod(roi.sizeY, lim.vsUnit) == 0
    && 0 <= roi.minX <= PosMax(lim.hsMax, lim.hpLimit) && CMod(roi.minX, lim.hpUnit) == 0
    && 0 <= roi.minY <= PosMax(lim.vsMax, lim.vpLimit) && CMod(roi.minY, lim.vpUnit) == 0
  }

  /** The steps of `setFormat7Params` in their order: the four roundings,
      then each size clamped below and above, then each offset. */
  method NormaliseRoi(req: Roi, lim: Limits) returns (r: Roi)
    requires Usable(lim)
    ensures r == Normalised(req, lim)
    ensures r.sizeX <= lim.hsMax && r.sizeY <= lim.vsMax
    ensures 0 <= r.minX <= PosMax(lim.hsMax, lim.hpLimit)
    ensures 0 <= r.minY <= PosMax(lim.vsMax, lim.vpLimit)
    ensures lim.hsUnit <= lim.hsMax ==> lim.hsUnit <= r.sizeX
    ensures lim.vsUnit <= lim.vsMax ==> lim.vsUnit <= r.sizeY
  {
    var sizeX, sizeY, minX, minY := req.sizeX, req.sizeY, req.minX, req.minY;
    var hpMax := PosMax(lim.hsMax, lim.hpLimit);
    var vpMax := PosMax(lim.vsMax, lim.vpLimit);
    if CMod(sizeX, lim.hsUnit) != 0 { sizeX := CDiv(sizeX, lim.hsUnit) * lim.hsUnit; }
    if CMod(sizeY, lim.vsUnit) != 0 { sizeY := CDiv(sizeY, lim.vsUnit) * lim.vsUnit; }
    if CMod(minX, lim.hpUnit) != 0 { minX := CDiv(minX, lim.hpUnit) * lim.hpUnit; }
    if CMod(minY, lim.vpUnit) != 0 { minY := CDiv(minY, lim.vpUnit) * lim.vpUnit; }

    if sizeX < lim.hsUnit { sizeX := lim.hsUnit; }
    if sizeX > lim.hsMax { sizeX := lim.hsMax; }
    if sizeY < lim.vsUnit { sizeY := lim.vsUnit; }
    if sizeY > lim.vsMax { sizeY := lim.vsMax; }

    if minX < 0 { minX := 0; }
    if minX > hpMax { minX := hpMax; }
    if minY < 0 { minY := 0; }
    if minY > vpMax { minY := vpMax; }
    r := Roi(sizeX, sizeY, minX, minY);
  }

  /** A region the camera can already take is sent unchanged. */
  lemma AdmissibleUnchanged(req: Roi, lim: Limits)
    requires Usable(lim) && Admissible(req, lim)
    ensures Normalised(req, lim) == req
  {
  }

  /** Whenever the increments fit inside the ranges, the result is admissible
      except that a size or offset clamped to a maximum that is not itself a
      multiple of the increment keeps that maximum. */
  lemma NormalisedIsAligned(req: Roi, lim: Limits)
    requires Usable(lim)
    ensures var r := Normalised(req, lim);
      && (r.sizeX == lim.hsMax || CMod(r.sizeX, lim.hsUnit) == 0)
      && (r.sizeY == lim.vsMax || CMod(r.sizeY, lim.vsUnit) == 0)
      && (r.minX == PosMax(lim.hsMax, lim.hpLimit) || CMod(r.minX, lim.hpUnit) == 0)
      && (r.minY == PosMax(lim.vsMax, lim.vpLimit) || CMod(r.minY, lim.vpUnit) == 0)
  {
    MultipleCMod(1, lim.hsUnit);
    MultipleCMod(1, lim.vsUnit);
    MultipleCMod(0, lim.hpUnit);
    MultipleCMod(0, lim.vpUnit);
  }

  /** When every maximum is a multiple of its increment and at least one
      increment, the result is admissible, and normalising it again changes nothing. */
  lemma NormalisedAdmissible(req: Roi, lim: Limits)
    requires Usable(lim)
    requires lim.hsUnit <= lim.hsMax && CMod(lim.hsMax, lim.hsUnit) == 0
    requires lim.vsUnit <= lim.vsMax && CMod(lim.vsMax, lim.vsUnit) == 0
    requires CMod(PosMax(lim.hsMax, lim.hpLimit), lim.hpUnit) == 0
    requires CMod(PosMax(lim.vsMax, lim.vpLimit), lim.vpUnit) == 0
    ensures Admissible(Normalised(req, lim), lim)
    ensures Normalised(Normalised(req, lim), lim) == Normalised(req, lim)
  {
    NormalisedIsAligned(req, lim);
    AdmissibleUnchanged(Normalised(req, lim), lim);
  }

  /** Without that condition normalising is not idempotent: with a maximum
      width of 10 and a width increment of 4, a request of 100 becomes 10,
      and 10 becomes 8. */
  lemma NotIdempotentWhenMaxUnaligned()
    ensures var lim := Limits(10, 10, 4, 1, 0, 0, 1, 1);
      && Normalised(Roi(100, 5, 0, 0), lim).sizeX == 10
      && Normalised(Normalised(Roi(100, 5, 0, 0), lim), lim).sizeX == 8
  {
    var lim := Limits(10, 10, 4, 1, 0, 0, 1, 1);
    assert CDiv(100, 4) == 25 && CMod(100, 4) == 0;
    assert RoundToUnit(100, 4) == 100;
    assert CDiv(10, 4) == 2 && CMod(10, 4) == 2;
    assert RoundToUnit(10, 4) == 8;
    assert RoundToUnit(5, 1) == 5 && RoundToUnit(0, 1) == 0;
  }
}
