/**
  Stream types of a hijacked (attached) connection and the decoded payload
  that pairs one of them with the bytes read.
 */
module Hijack {
  import opened Types

  newtype HijackedIOType = int

  /** Standard output, `&1`. */
  const STDOUT: HijackedIOType := 1
  /** Standard error, `&2`. */
  const STDERR: HijackedIOType := 2
  /** Both outputs interleaved: the bitwise or of the other two. */
  const MIXED: HijackedIOType := ((STDOUT as bv64) | (STDERR as bv64)) as HijackedIOType

  /** One decoded unit of output: exactly one stream type and its bytes. */
  datatype HijackedPayload = HijackedPayload(Type: HijackedIOType, Data: seq<byte>)

  /** MIXED is 3 and differs from both single streams; no constant names
      stream tag 0 (standard input). */
  lemma StreamTypesDistinct()
    ensures MIXED == 3
    ensures MIXED != STDOUT && MIXED != STDERR && STDOUT != STDERR
    ensures 0 !in {STDOUT, STDERR, MIXED}
  {
  }
}
