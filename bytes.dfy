/** Octets, as held by a Node.js `Buffer`. */
module Bytes {

  type Byte = b: int | 0 <= b < 256
}
