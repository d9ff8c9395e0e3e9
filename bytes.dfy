/** Octets, as produced by `str.encode` and consumed by `base64.b64encode`. */
module Bytes {

  /** An octet value 0 .. 255. */
  type uint8 = x: int | 0 <= x < 256
}
