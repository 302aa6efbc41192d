/** Machine integers, bytes and the two option types shared by every component. */
module Bytes {

  /** `uint8_t`. */
  type byte = x: int | 0 <= x < 0x100

  /** `uint16_t` and `uint32_t`: the source's unsigned arithmetic on them wraps. */
  type uint16 = x: int | 0 <= x < 0x1_0000
  type uint32 = x: int | 0 <= x < 0x1_0000_0000

  const INT64_MAX := 0x7FFF_FFFF_FFFF_FFFF
  const SIZE_MAX := 0xFFFF_FFFF_FFFF_FFFF
  const UINT32_MAX := 0xFFFF_FFFF

  /** `static_cast<uint32_t>`. */
  function ToUint32(x: int): uint32 {
    x % 0x1_0000_0000
  }

  /** `std::optional`. */
  datatype Option<+T> = None | Some(value: T)

  /** A SHA-1 digest, `std::array<uint8_t, 20>`. */
  type Digest = d: seq<byte> | |d| == 20 witness seq(20, _ => 0)

  function Min(a: int, b: int): int {
    if a <= b then a else b
  }

  function Max(a: int, b: int): int {
    if a <= b then b else a
  }

  /** `s` with `data` laid over it from position `at`; whatever of `data` falls outside `s` is dropped. */
  function Overwrite<T>(s: seq<T>, at: int, data: seq<T>): (r: seq<T>)
    ensures |r| == |s|
    ensures forall x {:trigger r[x]} | 0 <= x < |s| :: r[x] == if at <= x < at + |data| then data[x - at] else s[x]
  {
    if s == [] then [] else
      var x := |s| - 1;
      Overwrite(s[..x], at, data) + [if at <= x < at + |data| then data[x - at] else s[x]]
  }

  /** The bytes of an ASCII text. */
  function Ascii(text: string): (b: seq<byte>)
    requires forall k | 0 <= k < |text| :: text[k] as int < 0x80
    ensures |b| == |text| && forall k | 0 <= k < |text| :: b[k] == text[k] as int
  {
    seq(|text|, k requires 0 <= k < |text| => text[k] as int)
  }
}
