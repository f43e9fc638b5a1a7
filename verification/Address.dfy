/**
  What names an engine and its connections: the address a host gives its peer,
  and the identifiers an engine hands out (src/kcpmux_engine.c).
 */
module Address {
  datatype Addr = Addr(bytes: seq<int>)

  /** Connection identifiers are positive 64-bit numbers. */
  const ID_LIMIT: int := 0x1_0000_0000_0000_0000
}
