/** Wire-level vocabulary of SOCKS5 that the server decides on.
    The repository's statute package, which defines these names, is not part of
    this model: every value below is the one RFC 1928 assigns. */
module Statute {

  newtype byte = x: int | 0 <= x < 256

  /** Protocol version byte (section 3 of RFC 1928). */
  const VersionSocks5: byte := 0x05

  /** Authentication method codes (section 3 of RFC 1928). */
  const MethodNoAuth: byte := 0x00
  const MethodUserPassAuth: byte := 0x02
  const MethodNoAcceptable: byte := 0xFF

  /** Request commands (section 4 of RFC 1928). */
  const CommandConnect: byte := 0x01
  const CommandBind: byte := 0x02
  const CommandAssociate: byte := 0x03

  /** Reply codes (section 6 of RFC 1928). */
  const RepCommandNotSupported: byte := 0x07
  const RepAddrTypeNotSupported: byte := 0x08

  /** Destination of a request: one of the three address types of section 5
      of RFC 1928, and a port. */
  datatype Host =
    | IPv4(octets: seq<byte>)
    | IPv6(octets: seq<byte>)
    | Fqdn(name: string)

  datatype AddrSpec = AddrSpec(host: Host, port: nat)
}
