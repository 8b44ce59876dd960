/** Filling the frame buffer of a mono or Bayer frame with the camera's raw
    bytes: `memcpy`, or `swab` when 16-bit big-endian wire data lands on a
    little-endian host; the length is clamped to the buffer. */
module FrameFill {

  type byte = b: int | 0 <= b < 256

  /** `swab` over a whole block: each adjacent pair of bytes exchanged; an odd
      trailing byte is not written. */
  function SwapPairs(s: seq<byte>): (r: seq<byte>)
    ensures |r| == |s| / 2 * 2
    decreases |s|
  {
    if |s| < 2 then [] else [s[1], s[0]] + SwapPairs(s[2..])
  }

  /** The other byte of the pair that index `i` belongs to. */
  function Partner(i: nat): nat {
    if i % 2 == 0 then i + 1 else i - 1
  }

  /** Byte `i` of a swapped block is its partner byte of the original. */
  lemma {:induction false} SwapPairsAt(s: seq<byte>, i: nat)
    requires i < |s| / 2 * 2
    ensures Partner(i) < |s| && SwapPairs(s)[i] == s[Partner(i)]
  {
    if i >= 2 {
      SwapPairsAt(s[2..], i - 2);
      assert SwapPairs(s)[i] == SwapPairs(s[2..])[i - 2];
    }
  }

  /** Swapping an even-length block twice gives the block back. */
  lemma SwapPairsInvolution(s: seq<byte>)
    requires |s| % 2 == 0
    ensures SwapPairs(SwapPairs(s)) == s
  {
    var t := SwapPairs(s);
    forall i | 0 <= i < |s| ensures SwapPairs(t)[i] == s[i] {
      SwapPairsAt(t, i);
      SwapPairsAt(s, Partner(i));
    }
  }

  /** The number of bytes copied: the raw length, clamped to the buffer's size. */
  function CopyLength(rawLength: nat, capacity: nat): (n: nat)
    ensures n <= rawLength && n <= capacity
    ensures n == rawLength || n == capacity
  {
    if rawLength > capacity then capacity else rawLength
  }

  /** Whether the copy swaps bytes: two-byte samples on a little-endian host. */
  predicate NeedsSwap(bytesPerColor: int, hostBigEndian: bool) {
    !(bytesPerColor == 1 || hostBigEndian)
  }

  /** The buffer after the copy: the clamped raw block, swapped or not, over
      the buffer's earlier contents. */
  function Filled(dst: seq<byte>, src: seq<byte>, swap: bool): (r: seq<byte>)
    ensures |r| == |dst|
  {
    var n := CopyLength(|src|, |dst|);
    var written := if swap then SwapPairs(src[..n]) else src[..n];
    written + dst[|written|..]
  }

  /** How many bytes the copy writes: all of the clamped length, or, for
      `swab`, that length rounded down to whole pairs. */
  function Written(n: nat, swap: bool): nat {
    if swap then n / 2 * 2 else n
  }

  /** Byte by byte: inside the written prefix a byte is the raw byte (or its
      pair partner when swapping); past it the buffer is unchanged. */
  lemma FilledAt(dst: seq<byte>, src: seq<byte>, swap: bool, i: nat)
    requires i < |dst|
    ensures var w := Written(CopyLength(|src|, |dst|), swap);
      w <= |dst| &&
      Filled(dst, src, swap)[i] ==
        (if i >= w then dst[i] else if swap then src[Partner(i)] else src[i])
  {
    var n := CopyLength(|src|, |dst|);
    if swap && i < n / 2 * 2 {
      SwapPairsAt(src[..n], i);
    }
  }

  /** A verbatim copy when no swap is needed: the clamped prefix of the raw data. */
  lemma UnswappedIsPrefixCopy(dst: seq<byte>, src: seq<byte>)
    ensures var n := CopyLength(|src|, |dst|);
      Filled(dst, src, false)[..n] == src[..n] && Filled(dst, src, false)[n..] == dst[n..]
  {
  }

  /** A 16-bit sample as the camera sends it (most significant byte first). */
  function WireSample(s: seq<byte>, k: nat): int
    requires 2 * k + 1 < |s|
  {
    (s[2 * k] as int) * 256 + s[2 * k + 1] as int
  }

  /** A 16-bit sample as the host reads it from memory. */
  function HostSample(s: seq<byte>, k: nat, hostBigEndian: bool): int
    requires 2 * k + 1 < |s|
  {
    var b0, b1 := s[2 * k] as int, s[2 * k + 1] as int;
    if hostBigEndian then b0 * 256 + b1 else b0 + b1 * 256
  }

  /** For two-byte samples, on either kind of host, every sample that lies
      wholly inside the copied length reads in memory as the value the camera sent. */
  lemma SixteenBitSamplesPreserved(dst: seq<byte>, src: seq<byte>, hostBigEndian: bool, k: nat)
    requires 2 * k + 1 < CopyLength(|src|, |dst|)
    ensures 2 * k + 1 < |dst|
    ensures HostSample(Filled(dst, src, NeedsSwap(2, hostBigEndian)), k, hostBigEndian) == WireSample(src, k)
  {
    var swap := NeedsSwap(2, hostBigEndian);
    var f := Filled(dst, src, swap);
    var n := CopyLength(|src|, |dst|);
    assert Written(n, swap) > 2 * k + 1 by {
      assert n / 2 * 2 >= 2 * k + 2;
    }
    assert Partner(2 * k) == 2 * k + 1 && Partner(2 * k + 1) == 2 * k;
    FilledAt(dst, src, swap, 2 * k);
    FilledAt(dst, src, swap, 2 * k + 1);
    if swap {
      assert f[2 * k] == src[2 * k + 1] && f[2 * k + 1] == src[2 * k];
    } else {
      assert f[2 * k] == src[2 * k] && f[2 * k + 1] == src[2 * k + 1];
    }
  }

  /** The fill of `grabImage` for mono and Bayer frames. `buf` is the
      buffer of the leased NDArray, `raw` the camera's raw frame. */
  method FillBuffer(buf: array<byte>, raw: seq<byte>, bytesPerColor: int, hostBigEndian: bool) returns (n: nat)
    modifies buf
    ensures n == CopyLength(|raw|, buf.Length)
    ensures buf[..] == Filled(old(buf[..]), raw, NeedsSwap(bytesPerColor, hostBigEndian))
  {
    n := |raw|;
    if n > buf.Length {
      n := buf.Length;
    }
    if bytesPerColor == 1 || hostBigEndian {
      forall i | 0 <= i < n {
        buf[i] := raw[i];
      }
    } else {
      forall i | 0 <= i < n / 2 * 2 {
        buf[i] := raw[Partner(i)];
      }
    }
    ghost var swap := NeedsSwap(bytesPerColor, hostBigEndian);
    forall i | 0 <= i < buf.Length ensures buf[i] == Filled(old(buf[..]), raw, swap)[i] {
      FilledAt(old(buf[..]), raw, swap, i);
    }
  }
}
