/** Bytes, little-endian words, and the byte-copy loop of `utils.c`. */
module Bytes {

  type Byte = b: nat | b < 256

  const TWO_TO_THE_32 := 0x1_0000_0000
  const TWO_TO_THE_64 := 0x1_0000_0000_0000_0000

  function Min(a: nat, b: nat): (m: nat)
    ensures m <= a && m <= b && (m == a || m == b)
  {
    if a < b then a else b
  }

  function Quotient(a: nat, b: nat): nat
    requires b > 0
  {
    a / b
  }

  function Remainder(a: nat, b: nat): (r: nat)
    requires b > 0
    ensures r < b
  {
    a % b
  }

  /** A 32-bit word as the four bytes in memory, least significant first. */
  function Word(s: seq<Byte>): nat
    requires |s| == 4
  {
    s[0] as nat + 0x100 * (s[1] as nat) + 0x1_0000 * (s[2] as nat) + 0x100_0000 * (s[3] as nat)
  }

  /** `s` with `chunk` written over it from position `at`; what does not fit is dropped. */
  function Overlay(s: seq<Byte>, at: nat, chunk: seq<Byte>): (r: seq<Byte>)
    requires at <= |s|
    ensures |r| == |s|
  {
    var n := Min(|chunk|, |s| - at);
    s[..at] + chunk[..n] + s[at + n..]
  }

  /** The part of `s` that starts at `at` and has `length` bytes, cut at the end of `s`. */
  function Slice(s: seq<Byte>, at: nat, length: nat): seq<Byte> {
    if at >= |s| then [] else s[at..at + Min(length, |s| - at)]
  }

  /** Copies n bytes from src to dest. */
  method Memcpy(dest: array<Byte>, d: nat, src: array<Byte>, s: nat, n: nat)
    requires dest != src && d + n <= dest.Length && s + n <= src.Length
    modifies dest
    ensures dest[..] == Overlay(old(dest[..]), d, src[s..s + n])
  {
    for i := 0 to n
      invariant forall k :: 0 <= k < dest.Length ==>
        dest[k] == if d <= k < d + i then src[s + k - d] else old(dest[k])
    {
      dest[d + i] := src[s + i];
    }
  }
}
