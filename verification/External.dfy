/** What the kernel takes from outside itself, as functions that nothing here looks
    into: Unicode case tables, SHA-1 name-based UUIDs, SHA-256, and the RFC 3339
    rendering of an instant.  Only the shape of a digest is known, never its value. */
module External {
  import opened Text
  import opened Temporal

  type U8 = n: int | 0 <= n < 256

  /** 8-4-4-4-12 lowercase hexadecimal. */
  predicate IsCanonicalUuid(s: string) {
    |s| == 36 &&
    forall i :: 0 <= i < 36 ==> if i == 8 || i == 13 || i == 18 || i == 23 then s[i] == '-' else IsLowerHex(s[i])
  }

  predicate IsHexDigest(s: string) {
    |s| == 64 && forall i :: 0 <= i < 64 ==> IsLowerHex(s[i])
  }

  type UuidText = s: string | IsCanonicalUuid(s)
    witness seq(36, i => if i == 8 || i == 13 || i == 18 || i == 23 then '-' else '0')

  type HexDigest = s: string | IsHexDigest(s) witness seq(64, i => '0')

  datatype Platform = Platform(
    cases: CaseTables,
    uuidV5: seq<Byte> -> UuidText,   // over the FDOS namespace
    sha256: seq<Byte> -> HexDigest,
    rfc3339: Instant -> string)
}
