/**
 * The two pieces of the Java platform that a rule relies on: the 32-bit
 * `int` of its priority, and `String.hashCode`, which a rule's hash code
 * delegates to.
 */
module JavaTypes {

  /** Java's `int`: two's-complement, 32 bits. */
  newtype int32 = x: int | -0x8000_0000 <= x < 0x8000_0000

  /**
   * `String.hashCode` of the Java library. Its algorithm is library
   * behaviour and not part of this model: the value is left unspecified,
   * and all that is used is that it is a function of the string alone.
   */
  const StringHash: string -> int32
}
