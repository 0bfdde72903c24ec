/** `unsigned char`. */
module Bytes {

  type Byte = bv8

  lemma ValueOf(x: nat)
    requires x < 256
    ensures (x as Byte) as nat == x
  {
  }

  /** Different values are different bytes. */
  lemma Injective(x: nat, y: nat)
    requires x < 256 && y < 256 && x as Byte == y as Byte
    ensures x == y
  {
    ValueOf(x);
    ValueOf(y);
  }

  lemma XorTwice(x: Byte, y: Byte)
    ensures (x ^ y) ^ y == x
  {
  }

  lemma Unmasked(x: Byte, y: Byte, z: Byte)
    ensures x ^ y == x ^ z <==> y == z
  {
  }
}
