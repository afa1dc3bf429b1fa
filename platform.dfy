/** The JVM values the core reads, reduced to the parts it actually uses. */
module Platform {
  import opened Wrappers

  type byte = bv8

  /** Kotlin `Int`: a 32-bit signed integer. */
  newtype int32 = x: int | -0x8000_0000 <= x < 0x8000_0000

  /** A java.io.File as the upload path sees it: its name and its bytes;
      `File.length()` is the number of bytes. */
  datatype LocalFile = LocalFile(name: string, content: seq<byte>) {
    function Length(): nat {
      |content|
    }
  }

  /** A java.lang.Exception, of which the core only reads the (nullable) message. */
  datatype Exception = Exception(message: Option<string> := None)
}
