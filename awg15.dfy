/**
 * The AWG15 (AmneziaWG 1.5) configuration renderer: a pure function from the client's
 * private key, the peer's public key, the two client addresses and an endpoint to a
 * two-section INI-like text, and the file name derived from the IPv4 address.
 */
module Awg15 {
  import opened Common
  import opened Text

  /** The junk-packet knobs of the AWG15 profile. */
  datatype Profile = Profile(jc: nat, jmin: nat, jmax: nat)

  const Awg15Profile := Profile(120, 23, 911)

  /** Cloudflare's resolvers, IPv4 and IPv6 each, as the DNS line lists them. */
  const PrimaryDns := "1.1.1.1, 2606:4700:4700::1111"
  const SecondaryDns := "1.0.0.1, 2606:4700:4700::1001"

  /** The relay used when no endpoint is supplied. */
  const DefaultEndpoint := "162.159.195.1:500"

  /**
   * The hex digits of the I1 scrambling payload, one four-bit digit per element, as the
   * renderer writes them: 1969 digits, an odd number.
   */
  const I1Digits: seq<bv4> := [
    0xc, 0x2, 0x0, 0x0, 0x0, 0x0, 0x0, 0x0, 0x0, 0x1, 0x1, 0x4, 0x1, 0x9, 0xf, 0xa, 0x4, 0xb, 0xb, 0x3, 0x5, 0x9, 0x9, 0xf,
    0x3, 0x3, 0x6, 0x7, 0x7, 0x7, 0xd, 0xe, 0x7, 0x9, 0xf, 0x8, 0x1, 0xc, 0xa, 0x9, 0xa, 0x8, 0xd, 0x8, 0x0, 0xd, 0x9, 0x1,
    0xe, 0xe, 0xe, 0xc, 0x0, 0x0, 0x0, 0x0, 0x4, 0x4, 0xc, 0x6, 0x3, 0x5, 0xc, 0xe, 0xf, 0x0, 0x2, 0x4, 0xa, 0x8, 0x8, 0x5,
    0xd, 0xc, 0xb, 0x6, 0x6, 0xd, 0x1, 0x4, 0x2, 0x0, 0xa, 0x9, 0x1, 0xa, 0x8, 0xc, 0x4, 0x2, 0x7, 0xe, 0x8, 0x7, 0xd, 0x6,
    0xc, 0xf, 0x8, 0xe, 0x0, 0x8, 0xb, 0x5, 0x6, 0x3, 0x9, 0x3, 0x2, 0xf, 0x4, 0x4, 0x9, 0x4, 0x1, 0x2, 0xc, 0xd, 0xd, 0xf,
    0x7, 0x7, 0xd, 0x3, 0xe, 0x2, 0x5, 0x9, 0x4, 0xe, 0xa, 0x1, 0xc, 0x7, 0xa, 0x1, 0x8, 0x3, 0xc, 0x2, 0x3, 0x8, 0xa, 0x8,
    0x9, 0xe, 0x9, 0xa, 0xd, 0xb, 0x7, 0xf, 0xf, 0xa, 0x5, 0x7, 0xc, 0x1, 0x3, 0x3, 0xe, 0x5, 0x5, 0xc, 0x5, 0x9, 0xb, 0xe,
    0xc, 0x1, 0x0, 0x1, 0x6, 0x3, 0x4, 0xd, 0xb, 0x9, 0x0, 0xa, 0xf, 0xb, 0x8, 0x3, 0xf, 0x7, 0x5, 0xb, 0x1, 0x9, 0xf, 0xe,
    0x7, 0x0, 0x3, 0x1, 0x7, 0x9, 0xe, 0x2, 0x6, 0xa, 0x3, 0x1, 0x9, 0x0, 0x2, 0x3, 0x2, 0x4, 0xc, 0x7, 0x3, 0xf, 0x8, 0x2,
    0xd, 0x9, 0x3, 0x5, 0x4, 0xe, 0x1, 0xe, 0xd, 0x8, 0xd, 0xa, 0x3, 0x9, 0xa, 0xf, 0x6, 0x1, 0x0, 0xa, 0xf, 0xc, 0xb, 0x2,
    0x7, 0xe, 0x6, 0x5, 0x9, 0x0, 0xa, 0x4, 0x4, 0x3, 0x4, 0x1, 0xa, 0x0, 0x8, 0x2, 0x8, 0xe, 0x5, 0xa, 0x3, 0xd, 0x2, 0xf,
    0x0, 0xe, 0x0, 0xf, 0x7, 0xb, 0x0, 0x9, 0x4, 0x5, 0xd, 0x7, 0xb, 0xf, 0x3, 0x4, 0x0, 0x2, 0xf, 0xe, 0xe, 0xa, 0x0, 0xe,
    0xe, 0x6, 0x3, 0x3, 0x2, 0xe, 0x1, 0x9, 0xb, 0xd, 0xf, 0x4, 0x8, 0xf, 0xf, 0xc, 0x3, 0x8, 0x7, 0xa, 0x9, 0x7, 0x2, 0x2,
    0x7, 0xa, 0xa, 0x9, 0x7, 0xb, 0x2, 0x0, 0x5, 0xa, 0x4, 0x8, 0x5, 0xd, 0x2, 0x8, 0x2, 0xc, 0xd, 0x6, 0x6, 0xd, 0x1, 0xc,
    0x3, 0x8, 0x4, 0xb, 0xa, 0xf, 0xd, 0x6, 0x3, 0xd, 0xc, 0x4, 0x2, 0xf, 0x8, 0x2, 0x2, 0xc, 0x4, 0xd, 0xf, 0x2, 0x1, 0x0,
    0x9, 0xd, 0xb, 0x5, 0xb, 0x5, 0x6, 0x4, 0x6, 0xc, 0x4, 0x5, 0x8, 0x2, 0x3, 0x6, 0xd, 0xd, 0xc, 0xc, 0x0, 0x1, 0xa, 0xe,
    0x1, 0xc, 0x4, 0x9, 0x3, 0x4, 0x8, 0x2, 0x1, 0x2, 0x8, 0xb, 0xc, 0x0, 0x8, 0x3, 0x0, 0xc, 0x9, 0xe, 0x1, 0x2, 0x3, 0x3,
    0xf, 0x0, 0x0, 0x2, 0x7, 0xa, 0x0, 0xd, 0x2, 0x6, 0x2, 0xf, 0x9, 0x2, 0xb, 0x4, 0x9, 0xd, 0x9, 0xd, 0x8, 0xa, 0xb, 0xd,
    0x9, 0xa, 0x9, 0xe, 0x0, 0x3, 0x4, 0x1, 0xf, 0x6, 0xe, 0x1, 0x2, 0x1, 0x4, 0x7, 0x6, 0x1, 0x0, 0x4, 0x3, 0xc, 0x0, 0x2,
    0x1, 0xd, 0x7, 0xa, 0xa, 0x8, 0xc, 0x4, 0x6, 0x4, 0xb, 0x9, 0xd, 0x8, 0x6, 0x5, 0xf, 0x5, 0xf, 0xb, 0xe, 0x2, 0x3, 0x4,
    0xe, 0x4, 0x9, 0x6, 0x2, 0x6, 0xe, 0x0, 0x0, 0x7, 0x1, 0x2, 0x0, 0x3, 0x1, 0x7, 0x0, 0x3, 0xa, 0x3, 0xe, 0x2, 0x3, 0xe,
    0xf, 0x8, 0x2, 0x9, 0x7, 0x5, 0xf, 0x0, 0x1, 0x4, 0xe, 0xe, 0x1, 0xe, 0x1, 0xd, 0xc, 0x4, 0x2, 0x8, 0x5, 0x2, 0x1, 0xd,
    0xc, 0x2, 0x3, 0xc, 0xe, 0x7, 0xc, 0x6, 0xc, 0x1, 0x3, 0x6, 0x6, 0x3, 0xb, 0x1, 0x9, 0x9, 0x0, 0x6, 0x2, 0x4, 0x0, 0xb,
    0x3, 0xe, 0xf, 0xe, 0x4, 0x0, 0x3, 0xc, 0xf, 0x3, 0x0, 0x5, 0x5, 0x9, 0xd, 0x7, 0x9, 0x8, 0x8, 0x7, 0x1, 0x5, 0x5, 0x7,
    0xe, 0x4, 0xe, 0x6, 0x0, 0xe, 0x8, 0x6, 0xc, 0x2, 0x9, 0xe, 0xa, 0x4, 0x5, 0x0, 0x4, 0xe, 0xd, 0x4, 0xd, 0x9, 0xb, 0xb,
    0x8, 0xb, 0x5, 0x4, 0x9, 0xd, 0x0, 0xe, 0x8, 0xa, 0xc, 0xd, 0x6, 0xc, 0x3, 0x3, 0x4, 0xc, 0x3, 0x9, 0xb, 0xb, 0x8, 0xf,
    0xb, 0x4, 0x2, 0xe, 0xd, 0xe, 0x6, 0x8, 0xf, 0xb, 0x2, 0xa, 0xa, 0xd, 0xf, 0x0, 0x0, 0xc, 0xf, 0xc, 0x8, 0xb, 0xc, 0xc,
    0x1, 0x2, 0xd, 0xf, 0x0, 0x3, 0x6, 0x0, 0x2, 0xb, 0xb, 0xd, 0x4, 0xf, 0xe, 0x7, 0x0, 0x1, 0xd, 0x6, 0x4, 0xa, 0x3, 0x9,
    0xf, 0x7, 0xc, 0xe, 0xd, 0x1, 0x1, 0x2, 0x9, 0x5, 0x1, 0xa, 0x8, 0x3, 0xb, 0x1, 0xd, 0xb, 0xb, 0xe, 0x6, 0xc, 0xd, 0x6,
    0x9, 0x6, 0xd, 0xd, 0x3, 0xf, 0x1, 0x5, 0x9, 0x8, 0x5, 0xc, 0x1, 0xb, 0x9, 0xf, 0xe, 0xf, 0x7, 0x2, 0xf, 0xa, 0x8, 0xd,
    0x0, 0x3, 0x1, 0x9, 0x7, 0x0, 0x8, 0xb, 0x6, 0x3, 0x3, 0xc, 0xc, 0x4, 0x6, 0x8, 0x1, 0x9, 0x1, 0x0, 0x8, 0x4, 0x3, 0xc,
    0xe, 0x7, 0x5, 0x3, 0xf, 0xa, 0xc, 0x5, 0x9, 0x6, 0xe, 0xd, 0x9, 0x9, 0x4, 0x5, 0xd, 0x8, 0xb, 0x8, 0x3, 0x9, 0xa, 0xe,
    0xf, 0xf, 0x8, 0xd, 0x3, 0xb, 0xf, 0x0, 0x4, 0x4, 0x9, 0x1, 0x9, 0x7, 0xb, 0xd, 0x0, 0xb, 0xb, 0x2, 0x2, 0xa, 0xb, 0x8,
    0xe, 0xf, 0xd, 0x5, 0xd, 0x6, 0x3, 0xe, 0xb, 0x4, 0xa, 0x9, 0x5, 0xd, 0xb, 0x8, 0xd, 0x3, 0xf, 0xf, 0xc, 0x7, 0x9, 0x6,
    0xe, 0xd, 0x5, 0xb, 0xc, 0xf, 0x2, 0xf, 0x4, 0xa, 0x1, 0x3, 0x6, 0xa, 0x8, 0xa, 0x3, 0x6, 0xc, 0x7, 0xa, 0x0, 0xc, 0x6,
    0x5, 0x2, 0x7, 0x0, 0xd, 0x5, 0x1, 0x1, 0xa, 0xe, 0xb, 0xa, 0xc, 0x7, 0x3, 0x3, 0xe, 0x6, 0x1, 0xd, 0x4, 0x1, 0x4, 0x0,
    0x5, 0x0, 0x0, 0x8, 0x8, 0xa, 0x1, 0xc, 0x3, 0xd, 0x8, 0x6, 0x8, 0xf, 0xb, 0x5, 0x2, 0xb, 0xc, 0x7, 0xe, 0x5, 0x7, 0xd,
    0x3, 0xd, 0x9, 0xf, 0xd, 0x1, 0x3, 0x2, 0xd, 0x7, 0x8, 0xb, 0x7, 0x4, 0x0, 0xa, 0x6, 0xe, 0xc, 0xd, 0xc, 0x6, 0xc, 0x2,
    0x4, 0x9, 0x3, 0x6, 0xe, 0x9, 0x2, 0xc, 0x2, 0x8, 0x6, 0x7, 0x2, 0xd, 0xb, 0xe, 0x0, 0x0, 0x9, 0x2, 0x8, 0xd, 0x8, 0x9,
    0xb, 0x8, 0x9, 0x1, 0x8, 0x6, 0x5, 0xf, 0x8, 0x8, 0x5, 0xa, 0xe, 0xb, 0x4, 0xc, 0x4, 0x9, 0x9, 0x6, 0xd, 0x5, 0x0, 0xc,
    0x2, 0xb, 0xb, 0xb, 0xb, 0x7, 0xa, 0x9, 0x9, 0xa, 0xb, 0x5, 0xd, 0xe, 0x0, 0x2, 0xa, 0xc, 0x8, 0x9, 0xb, 0x3, 0x3, 0x0,
    0x8, 0xe, 0x5, 0x7, 0xb, 0xc, 0xe, 0xc, 0xf, 0x1, 0x3, 0xf, 0x2, 0xd, 0xa, 0x0, 0x3, 0x3, 0x3, 0xd, 0x1, 0x4, 0x2, 0x0,
    0xe, 0x1, 0x8, 0xb, 0x6, 0x6, 0xb, 0x4, 0xc, 0x2, 0x3, 0xd, 0x6, 0x2, 0x5, 0xd, 0x8, 0x3, 0x6, 0xb, 0x5, 0x3, 0x8, 0xf,
    0xc, 0x0, 0xc, 0x2, 0x2, 0x1, 0xd, 0x6, 0xb, 0xd, 0x7, 0xf, 0x5, 0x6, 0x6, 0xa, 0x3, 0x1, 0xf, 0xa, 0x2, 0x9, 0x2, 0xb,
    0x8, 0x5, 0xb, 0xe, 0x9, 0x6, 0x0, 0x4, 0x1, 0xd, 0x8, 0xe, 0x0, 0xb, 0xf, 0xe, 0x6, 0x5, 0x5, 0xd, 0x5, 0xd, 0xc, 0x1,
    0xa, 0xf, 0xe, 0xd, 0x2, 0x3, 0xe, 0xb, 0x8, 0xf, 0x2, 0xb, 0x3, 0x4, 0x4, 0x6, 0x5, 0x6, 0x1, 0xb, 0xb, 0xe, 0xe, 0x7,
    0x6, 0x4, 0x4, 0x3, 0x2, 0x5, 0xc, 0xc, 0x9, 0x8, 0xd, 0x3, 0x1, 0xc, 0xe, 0xa, 0x3, 0x8, 0xb, 0x8, 0x6, 0x5, 0xb, 0xd,
    0xc, 0xc, 0x5, 0x0, 0x7, 0xe, 0x4, 0x8, 0xc, 0x6, 0xe, 0xb, 0xd, 0xc, 0x7, 0x5, 0x5, 0x3, 0xb, 0xe, 0x7, 0xb, 0xd, 0x6,
    0xa, 0xb, 0x9, 0x6, 0x3, 0xd, 0x5, 0xa, 0x1, 0x4, 0x6, 0x1, 0x5, 0xc, 0x4, 0xb, 0x8, 0x1, 0xd, 0xa, 0x7, 0x0, 0x8, 0x1,
    0xc, 0x1, 0x2, 0x7, 0xc, 0x7, 0x9, 0x1, 0x2, 0x2, 0x4, 0x8, 0x5, 0x3, 0xe, 0x2, 0xd, 0x1, 0x9, 0xb, 0xa, 0xf, 0xd, 0xc,
    0x0, 0xd, 0x9, 0xf, 0x3, 0xf, 0x3, 0xa, 0x6, 0xd, 0xe, 0x8, 0x9, 0x8, 0xd, 0x1, 0x4, 0xa, 0xb, 0xb, 0x0, 0xe, 0x2, 0xb,
    0xc, 0x8, 0x4, 0x9, 0x9, 0x1, 0x7, 0xe, 0x0, 0xa, 0x5, 0x9, 0x9, 0xe, 0xd, 0x4, 0xa, 0x5, 0x4, 0x1, 0x2, 0x6, 0x8, 0xa,
    0xd, 0x0, 0xe, 0x6, 0x0, 0xe, 0xa, 0x4, 0xd, 0x1, 0x4, 0x7, 0xd, 0xc, 0x3, 0x3, 0xd, 0x1, 0x7, 0xf, 0xa, 0x8, 0x2, 0xf,
    0x2, 0x2, 0xa, 0xa, 0x5, 0x0, 0x5, 0xc, 0xc, 0xb, 0x5, 0x3, 0x8, 0x0, 0x3, 0xa, 0x3, 0x1, 0xd, 0x1, 0x0, 0xa, 0x7, 0xc,
    0xa, 0x2, 0xf, 0xe, 0xa, 0x0, 0xb, 0x2, 0x9, 0x0, 0xa, 0x5, 0x2, 0xe, 0xe, 0x9, 0x2, 0xc, 0x7, 0xb, 0xf, 0x4, 0xa, 0xa,
    0xb, 0x7, 0xc, 0xe, 0xa, 0x4, 0xe, 0x3, 0xc, 0x0, 0x7, 0xb, 0x1, 0x9, 0x8, 0x9, 0x3, 0x6, 0x4, 0xe, 0xe, 0xd, 0x8, 0x7,
    0xa, 0x3, 0xc, 0x6, 0xb, 0xa, 0x6, 0x5, 0x1, 0x8, 0x8, 0xc, 0xd, 0x3, 0x4, 0x9, 0xd, 0x3, 0x7, 0xc, 0xe, 0x4, 0xe, 0xe,
    0xf, 0xd, 0xe, 0x9, 0xe, 0xc, 0x4, 0x3, 0xb, 0xa, 0xb, 0x4, 0xb, 0x4, 0xd, 0xc, 0x7, 0x9, 0xe, 0x0, 0x3, 0x4, 0x6, 0x9,
    0xc, 0x2, 0xa, 0xd, 0x6, 0xb, 0x9, 0x0, 0x2, 0xe, 0x2, 0x8, 0xe, 0x0, 0xb, 0xb, 0xb, 0xb, 0xf, 0x6, 0x9, 0x6, 0x7, 0x8,
    0x1, 0xa, 0xd, 0x4, 0xe, 0xd, 0xf, 0x4, 0x2, 0x4, 0xf, 0xf, 0xb, 0x3, 0x5, 0xc, 0xe, 0x0, 0x2, 0x3, 0x6, 0xd, 0x3, 0x7,
    0x3, 0x6, 0x2, 0x9, 0x0, 0x0, 0x8, 0xf, 0x1, 0x4, 0x2, 0xd, 0x0, 0x4, 0xb, 0x5, 0xe, 0x0, 0x8, 0xa, 0x1, 0x2, 0x4, 0x2,
    0x3, 0x7, 0xe, 0x0, 0x3, 0xe, 0x3, 0x1, 0x4, 0x9, 0xf, 0x4, 0xc, 0xd, 0xd, 0xe, 0x9, 0x2, 0xd, 0x7, 0xf, 0xa, 0xe, 0x5,
    0x8, 0x1, 0xa, 0x1, 0xa, 0xc, 0x3, 0x3, 0x2, 0xe, 0x2, 0x6, 0xb, 0x2, 0xc, 0x9, 0xc, 0x1, 0xa, 0x6, 0xb, 0xd, 0xe, 0xc,
    0x5, 0xb, 0x3, 0xa, 0x9, 0xc, 0x7, 0xa, 0x2, 0xa, 0x8, 0x7, 0x0, 0xf, 0x7, 0xa, 0x0, 0xc, 0x2, 0x5, 0xf, 0xc, 0x6, 0xc,
    0xe, 0x2, 0x4, 0x5, 0xe, 0x0, 0x2, 0x9, 0xb, 0x6, 0x8, 0x6, 0xe, 0x3, 0x4, 0x6, 0xc, 0x6, 0xd, 0x8, 0x6, 0x2, 0xa, 0xd,
    0x8, 0xd, 0xf, 0x6, 0xd, 0x9, 0xb, 0x6, 0x2, 0x4, 0x7, 0x4, 0xf, 0xb, 0xc, 0x3, 0x1, 0xd, 0xb, 0xb, 0x9, 0x1, 0x4, 0x7,
    0x1, 0x1, 0xf, 0x7, 0x8, 0x0, 0x7, 0x4, 0xd, 0x4, 0x4, 0x4, 0x1, 0xf, 0x4, 0xe, 0x6, 0xe, 0x9, 0xe, 0xd, 0xc, 0xa, 0x3,
    0xc, 0x5, 0x2, 0x3, 0x1, 0x5, 0xa, 0x5, 0xc, 0x0, 0x6, 0x5, 0x3, 0x8, 0x5, 0x6, 0xe, 0x2, 0x3, 0xf, 0x6, 0x8, 0x1, 0x5,
    0x5, 0x8, 0xd, 0x6, 0x6, 0x9, 0xf, 0x4, 0xa, 0x4, 0xe, 0x6, 0x9, 0x1, 0x5, 0xb, 0xc, 0xf, 0x4, 0x2, 0xb, 0x5, 0x6, 0xc,
    0xe, 0x3, 0x6, 0xc, 0xb, 0x7, 0xd, 0xd, 0x3, 0x9, 0x8, 0x3, 0xb, 0x0, 0xb, 0x1, 0xd, 0x6, 0xf, 0xd, 0xf, 0x0, 0xf, 0x8,
    0xe, 0xf, 0xd, 0xd, 0xb, 0x6, 0x8, 0xe, 0x7, 0xc, 0xa, 0x0, 0xa, 0xe, 0x9, 0xd, 0xd, 0x4, 0x5, 0x7, 0x0, 0xf, 0xe, 0x6,
    0x9, 0x7, 0x8, 0xf, 0xb, 0xb, 0x5, 0x2, 0x4, 0x1, 0x0, 0x9, 0xf, 0x6, 0xe, 0xc, 0x9, 0x5, 0x7, 0xc, 0xa, 0x6, 0x1, 0xf,
    0x1, 0x7, 0x6, 0x7, 0xe, 0xf, 0x7, 0x4, 0xe, 0xb, 0x8, 0x0, 0x3, 0xb, 0x0, 0xf, 0x1, 0x6, 0xa, 0xb, 0xd, 0x0, 0x0, 0x8,
    0x7, 0xc, 0xf, 0x2, 0xd, 0x0, 0x1, 0xb, 0xc, 0x1, 0xd, 0xb, 0x1, 0xc, 0x0, 0x1, 0xd, 0x9, 0x7, 0xa, 0xc, 0x8, 0x1, 0xb,
    0x3, 0x1, 0x9, 0x6, 0xc, 0x9, 0x3, 0x4, 0x5, 0x8, 0x6, 0x9, 0x6, 0x3, 0xf, 0xe, 0x7, 0xc, 0xf, 0x2, 0xd, 0x3, 0x1, 0x0,
    0xe, 0x0, 0x7, 0x3, 0x9, 0x6, 0x2, 0x1, 0xe, 0x8, 0xb, 0xd, 0x0, 0x0, 0xd, 0xc, 0x2, 0x3, 0xf, 0xd, 0xe, 0xd, 0x1, 0x8,
    0x5, 0x7, 0x6, 0xd, 0x8, 0xc, 0x8, 0xf, 0x2, 0x8, 0x5, 0xd, 0x7, 0xb, 0xb, 0x5, 0xf, 0x4, 0x3, 0xb, 0x5, 0x4, 0x7, 0xa,
    0xf, 0x3, 0xc, 0x7, 0x6, 0x2, 0x3, 0x5, 0xd, 0xe, 0x8, 0xb, 0x6, 0xf, 0x7, 0x5, 0x7, 0xf, 0x8, 0x1, 0x7, 0x6, 0x8, 0x3,
    0xb, 0x2, 0x1, 0x5, 0x1, 0x6, 0x0, 0x0, 0xb, 0x1, 0x1, 0x7, 0x2, 0x1, 0x2, 0x1, 0x9, 0x2, 0x1, 0x2, 0xb, 0xf, 0x2, 0x7,
    0x5, 0x5, 0x8, 0xe, 0xd, 0xd, 0x4, 0x3, 0x9, 0xe, 0x7, 0x3, 0xf, 0xc, 0xe, 0x9, 0x5, 0x1, 0xf, 0x6, 0x1, 0xd, 0x5, 0x8,
    0x2, 0x3, 0x2, 0x0, 0xe, 0x5, 0xf, 0x4, 0xd, 0x6, 0xc, 0x3, 0x1, 0x5, 0xc, 0x7, 0x1, 0x1, 0x2, 0x9, 0xb, 0x7, 0x1, 0x9,
    0x2, 0x7, 0x7, 0xf, 0xc, 0x1, 0x4, 0x4, 0xb, 0xb, 0xe, 0x8, 0xd, 0xe, 0xd, 0x2, 0x5, 0xa, 0xb, 0x6, 0xd, 0x2, 0x9, 0xb,
    0x6 ]

  /**
   * AmneziaWG's hex byte-string tag as the renderer writes it: `<b 0x` and the digits, with
   * no closing `>`. It holds no line break.
   */
  function HexTag(digits: seq<bv4>): (r: string)
    ensures '\n' !in r
  {
    HexTagShape(digits);
    "<b 0x" + HexDigits(digits)
  }

  /** The tag is `<b 0x` followed by one hex digit per digit given, and nothing else. */
  lemma HexTagShape(digits: seq<bv4>)
    ensures var r := "<b 0x" + HexDigits(digits);
      && |r| == 5 + |digits| && r[..5] == "<b 0x" && '>' !in r
      && forall i :: 5 <= i < |r| ==> IsHexDigit(r[i])
  {
    var text := HexDigits(digits);
    var r := "<b 0x" + text;
    assert forall i :: 5 <= i < |r| ==> r[i] == text[i - 5];
  }

  /** The I1 value exactly as the renderer writes it. */
  function I1Value(): string
  {
    HexTag(I1Digits)
  }

  /**
   * The I1 value is `<b 0x` and 1969 hex digits, an odd number, ending in `6`: the tag is
   * never closed with `>`.
   */
  lemma I1Shape()
    ensures |I1Value()| == 5 + 1969 && I1Value()[..5] == "<b 0x"
    ensures forall i :: 5 <= i < |I1Value()| ==> IsHexDigit(I1Value()[i])
    ensures I1Value()[|I1Value()| - 1] == '6' && '>' !in I1Value()
  {
    HexTagShape(I1Digits);
    assert I1Digits[1968] == 0x6;
  }

  /** What the renderer is given; an empty `endpoint` stands for an absent one. */
  datatype Params = Params(
    privateKey: string,
    publicKey: string,
    clientIPv4: string,
    clientIPv6: string,
    endpoint: string)

  /** Every interpolated value fits on one line (base64 keys, CIDR addresses, host:port). */
  predicate OneLineFields(p: Params)
  {
    && '\n' !in p.privateKey
    && '\n' !in p.publicKey
    && '\n' !in p.clientIPv4
    && '\n' !in p.clientIPv6
    && '\n' !in p.endpoint
  }

  function InterfaceLines(p: Params): seq<string>
  {
    InterfaceLinesWith(p, I1Value())
  }

  /** The interface lines around a given I1 value, so proofs need not look inside the payload. */
  function InterfaceLinesWith(p: Params, i1: string): seq<string>
  {
    [ "[Interface]",
      "PrivateKey = " + p.privateKey,
      "Address = " + p.clientIPv4 + ", " + p.clientIPv6,
      "DNS = " + PrimaryDns + ", " + SecondaryDns,
      "MTU = 1280",
      "S1 = 0",
      "S2 = 0",
      "Jc = " + Decimal(Awg15Profile.jc),
      "Jmin = " + Decimal(Awg15Profile.jmin),
      "Jmax = " + Decimal(Awg15Profile.jmax),
      "H1 = 1",
      "H2 = 2",
      "H3 = 3",
      "H4 = 4",
      "I1 = " + i1 ]
  }

  function InterfaceSection(p: Params): string
  {
    Join(InterfaceLines(p), '\n')
  }

  /** `endpoint || DEFAULT_ENDPOINT`: the supplied endpoint, or the default relay when it is empty. */
  function EffectiveEndpoint(endpoint: string): (r: string)
    ensures r != ""
    ensures endpoint != "" ==> r == endpoint
    ensures endpoint == "" ==> r == DefaultEndpoint
  {
    if endpoint != "" then endpoint else DefaultEndpoint
  }

  function PeerLines(p: Params): seq<string>
  {
    [ "[Peer]",
      "PublicKey = " + p.publicKey,
      "AllowedIPs = 0.0.0.0/0, ::/0",
      "Endpoint = " + EffectiveEndpoint(p.endpoint) ]
  }

  function PeerSection(p: Params): string
  {
    Join(PeerLines(p), '\n')
  }

  /** The whole configuration text: interface section, a blank line, peer section. */
  function Build(p: Params): string
  {
    InterfaceSection(p) + "\n\n" + PeerSection(p)
  }

  /**
   * The download name `AWG15_<v4 up to its first '/'>.conf`: the host part of the
   * IPv4 CIDR, or the whole string when it has no prefix length.
   */
  function ConfigName(clientIPv4: string): (r: string)
    ensures |r| >= 11 && r[..6] == "AWG15_" && r[|r| - 5..] == ".conf"
    ensures var host := r[6..|r| - 5];
      host <= clientIPv4 && '/' !in host && (|host| < |clientIPv4| ==> clientIPv4[|host|] == '/')
    ensures '/' !in clientIPv4 ==> r == "AWG15_" + clientIPv4 + ".conf"
  {
    FirstPiece(clientIPv4, '/');
    var r := "AWG15_" + Split(clientIPv4, '/')[0] + ".conf";
    assert r[6..|r| - 5] == Split(clientIPv4, '/')[0];
    r
  }

  /** The value of a `key = value` line, if the line is one for `key`. */
  function FieldValue(line: string, key: string): Option<string>
  {
    var tag := key + " = ";
    if tag <= line then Some(line[|tag|..]) else None
  }

  /** What a reader of the file finds for `key`: the value on the first line for it. */
  function Lookup(lines: seq<string>, key: string): Option<string>
  {
    if |lines| == 0 then None
    else if FieldValue(lines[0], key).Some? then FieldValue(lines[0], key)
    else Lookup(lines[1..], key)
  }

  /** Two sections of one-line lines, joined with a blank line between them, read back as such. */
  lemma {:induction false} SectionsLayout(first: seq<string>, second: seq<string>)
    requires |first| > 0 && |second| > 0
    requires forall i :: 0 <= i < |first| ==> '\n' !in first[i]
    requires forall i :: 0 <= i < |second| ==> '\n' !in second[i]
    ensures Lines(Join(first, '\n') + "\n\n" + Join(second, '\n')) == first + [""] + second
  {
    JoinAppend([""], second, '\n');
    JoinAppend(first, [""] + second, '\n');
    var a, b := Join(first, '\n'), Join(second, '\n');
    assert Join([""] + second, '\n') == "\n" + b;
    assert a + ['\n'] + ("\n" + b) == a + "\n\n" + b;
    assert first + [""] + second == first + ([""] + second);
    SplitJoin(first + [""] + second, '\n');
  }

  lemma InterfaceLinesOneLine(p: Params, i1: string)
    requires OneLineFields(p) && '\n' !in i1
    ensures forall i :: 0 <= i < |InterfaceLinesWith(p, i1)| ==> '\n' !in InterfaceLinesWith(p, i1)[i]
  {
  }

  /** Lookup finds the first line for the key. */
  lemma {:induction false} LookupFirst(lines: seq<string>, key: string, i: nat)
    requires i < |lines| && FieldValue(lines[i], key).Some?
    requires forall j :: 0 <= j < i ==> FieldValue(lines[j], key).None?
    ensures Lookup(lines, key) == FieldValue(lines[i], key)
  {
    if i > 0 {
      LookupFirst(lines[1..], key, i - 1);
    }
  }

  lemma {:induction false} LookupAppend(a: seq<string>, b: seq<string>, key: string)
    ensures Lookup(a + b, key) == if Lookup(a, key).Some? then Lookup(a, key) else Lookup(b, key)
    decreases |a|
  {
    if |a| > 0 {
      assert (a + b)[0] == a[0];
      assert (a + b)[1..] == a[1..] + b;
      LookupAppend(a[1..], b, key);
    } else {
      assert a + b == b;
    }
  }

  lemma {:induction false} LookupAbsent(lines: seq<string>, key: string)
    requires forall j :: 0 <= j < |lines| ==> FieldValue(lines[j], key).None?
    ensures Lookup(lines, key) == None
    decreases |lines|
  {
    if |lines| > 0 {
      LookupAbsent(lines[1..], key);
    }
  }

  /** The line `key = value` carries `value` for `key`. */
  lemma FieldOfLine(key: string, value: string)
    ensures FieldValue(key + " = " + value, key) == Some(value)
  {
    var line := key + " = " + value;
    assert key + " = " <= line;
    assert line[|key + " = "|..] == value;
  }

  /** A line whose k-th character differs from the key's is not a line for that key. */
  lemma NotFieldAt(line: string, key: string, k: nat)
    requires k < |key| && k < |line| && line[k] != key[k]
    ensures FieldValue(line, key).None?
  {
  }

  /** No interface line is one for a peer-section key, whatever the I1 value. */
  lemma InterfaceHasNoPeerKey(p: Params, i1: string, key: string)
    requires key == "PublicKey" || key == "AllowedIPs" || key == "Endpoint"
    ensures Lookup(InterfaceLinesWith(p, i1) + [""], key) == None
  {
    var lines := InterfaceLinesWith(p, i1) + [""];
    forall j | 0 <= j < |lines| ensures FieldValue(lines[j], key).None? {
      if j < 15 {
        NotFieldAt(lines[j], key, 1);
      }
    }
    LookupAbsent(lines, key);
  }

  /** The lines of a rendered file around a given I1 value: the layout `BuildLayout` proves. */
  function FileLines(p: Params, i1: string): seq<string>
  {
    InterfaceLinesWith(p, i1) + [""] + PeerLines(p)
  }

  lemma PrivateKeyReadBack(p: Params, i1: string)
    ensures Lookup(FileLines(p, i1), "PrivateKey") == Some(p.privateKey)
  {
    var lines := FileLines(p, i1);
    assert lines[0] == "[Interface]";
    NotFieldAt(lines[0], "PrivateKey", 0);
    assert lines[1] == "PrivateKey" + " = " + p.privateKey;
    FieldOfLine("PrivateKey", p.privateKey);
    LookupFirst(lines, "PrivateKey", 1);
  }

  lemma AddressReadBack(p: Params, i1: string)
    ensures Lookup(FileLines(p, i1), "Address") == Some(p.clientIPv4 + ", " + p.clientIPv6)
  {
    var lines := FileLines(p, i1);
    var value := p.clientIPv4 + ", " + p.clientIPv6;
    assert lines[0] == "[Interface]";
    assert lines[1] == "PrivateKey = " + p.privateKey;
    NotFieldAt(lines[0], "Address", 0);
    NotFieldAt(lines[1], "Address", 0);
    assert lines[2] == "Address" + " = " + value;
    FieldOfLine("Address", value);
    LookupFirst(lines, "Address", 2);
  }

  /** A peer-section key is read from the peer lines: no interface line carries it. */
  lemma PeerKeysOnlyInPeerSection(p: Params, i1: string, key: string)
    requires key == "PublicKey" || key == "AllowedIPs" || key == "Endpoint"
    ensures Lookup(FileLines(p, i1), key) == Lookup(PeerLines(p), key)
  {
    LookupAppend(InterfaceLinesWith(p, i1) + [""], PeerLines(p), key);
    InterfaceHasNoPeerKey(p, i1, key);
  }

  lemma PublicKeyReadBack(p: Params)
    ensures Lookup(PeerLines(p), "PublicKey") == Some(p.publicKey)
  {
    var peer := PeerLines(p);
    assert peer[0] == "[Peer]";
    NotFieldAt(peer[0], "PublicKey", 0);
    assert peer[1] == "PublicKey" + " = " + p.publicKey;
    FieldOfLine("PublicKey", p.publicKey);
    LookupFirst(peer, "PublicKey", 1);
  }

  lemma AllowedIPsReadBack(p: Params)
    ensures Lookup(PeerLines(p), "AllowedIPs") == Some("0.0.0.0/0, ::/0")
  {
    var peer := PeerLines(p);
    assert peer[0] == "[Peer]";
    assert peer[1] == "PublicKey = " + p.publicKey;
    NotFieldAt(peer[0], "AllowedIPs", 0);
    NotFieldAt(peer[1], "AllowedIPs", 0);
    assert peer[2] == "AllowedIPs" + " = " + "0.0.0.0/0, ::/0";
    FieldOfLine("AllowedIPs", "0.0.0.0/0, ::/0");
    LookupFirst(peer, "AllowedIPs", 2);
  }

  lemma EndpointReadBack(p: Params)
    ensures Lookup(PeerLines(p), "Endpoint") == Some(EffectiveEndpoint(p.endpoint))
  {
    var peer := PeerLines(p);
    assert peer[0] == "[Peer]";
    assert peer[1] == "PublicKey = " + p.publicKey;
    assert peer[2] == "AllowedIPs = 0.0.0.0/0, ::/0";
    NotFieldAt(peer[0], "Endpoint", 0);
    NotFieldAt(peer[1], "Endpoint", 0);
    NotFieldAt(peer[2], "Endpoint", 0);
    assert peer[3] == "Endpoint" + " = " + EffectiveEndpoint(p.endpoint);
    FieldOfLine("Endpoint", EffectiveEndpoint(p.endpoint));
    LookupFirst(peer, "Endpoint", 3);
  }

  /** Every key of the file is read back as the value rendered into it, whatever the I1 value. */
  lemma FileReadBack(p: Params, i1: string)
    ensures var lines := FileLines(p, i1);
      && Lookup(lines, "PrivateKey") == Some(p.privateKey)
      && Lookup(lines, "Address") == Some(p.clientIPv4 + ", " + p.clientIPv6)
      && Lookup(lines, "PublicKey") == Some(p.publicKey)
      && Lookup(lines, "AllowedIPs") == Some("0.0.0.0/0, ::/0")
      && Lookup(lines, "Endpoint") == Some(EffectiveEndpoint(p.endpoint))
  {
    PrivateKeyReadBack(p, i1);
    AddressReadBack(p, i1);
    PeerKeysOnlyInPeerSection(p, i1, "PublicKey");
    PeerKeysOnlyInPeerSection(p, i1, "AllowedIPs");
    PeerKeysOnlyInPeerSection(p, i1, "Endpoint");
    PublicKeyReadBack(p);
    AllowedIPsReadBack(p);
    EndpointReadBack(p);
  }

  /** The layout of a rendered file around any one-line I1 value. */
  lemma LayoutWith(p: Params, i1: string)
    requires OneLineFields(p) && '\n' !in i1
    ensures Lines(Join(InterfaceLinesWith(p, i1), '\n') + "\n\n" + PeerSection(p)) == FileLines(p, i1)
    ensures |FileLines(p, i1)| == 20
  {
    InterfaceLinesOneLine(p, i1);
    SectionsLayout(InterfaceLinesWith(p, i1), PeerLines(p));
  }

  /**
   * The rendered text is exactly the fifteen interface lines, one empty line and the four
   * peer lines: reading it back line by line gives the lines it was built from.
   */
  lemma BuildLayout(p: Params)
    requires OneLineFields(p)
    ensures Lines(Build(p)) == InterfaceLines(p) + [""] + PeerLines(p)
    ensures |Lines(Build(p))| == 20
  {
    var i1 := I1Value();
    LayoutWith(p, i1);
  }

  /** The section headers in the lines of a file, whatever the I1 value. */
  lemma HeadersWith(p: Params, i1: string)
    ensures var lines := FileLines(p, i1);
      && |lines| == 20 && lines[15] == ""
      && (forall i :: 0 <= i < |lines| ==> (lines[i] == "[Interface]" <==> i == 0))
      && (forall i :: 0 <= i < |lines| ==> (lines[i] == "[Peer]" <==> i == 16))
  {
    var lines := FileLines(p, i1);
    forall i | 0 <= i < |lines| && i != 0 && i != 15 && i != 16
      ensures lines[i] != "[Interface]" && lines[i] != "[Peer]"
    {
      assert lines[i][0] != '[';
    }
  }

  /**
   * `[Interface]` heads the text and `[Peer]` heads the second section, after one empty
   * line; each header stands on exactly one line, the interface header first.
   */
  lemma SectionHeaders(p: Params)
    requires OneLineFields(p)
    ensures var lines := Lines(Build(p));
      && |lines| == 20 && lines[15] == ""
      && (forall i :: 0 <= i < |lines| ==> (lines[i] == "[Interface]" <==> i == 0))
      && (forall i :: 0 <= i < |lines| ==> (lines[i] == "[Peer]" <==> i == 16))
  {
    var i1 := I1Value();
    LayoutWith(p, i1);
    HeadersWith(p, i1);
  }

  /**
   * Reading the rendered file back by key gives the interpolated values: the private key,
   * the address pair `v4, v6`, the peer key, the catch-all route and the endpoint, which is
   * the supplied one when non-empty and the default relay otherwise.
   */
  lemma ReadBack(p: Params)
    requires OneLineFields(p)
    ensures var lines := Lines(Build(p));
      && Lookup(lines, "PrivateKey") == Some(p.privateKey)
      && Lookup(lines, "Address") == Some(p.clientIPv4 + ", " + p.clientIPv6)
      && Lookup(lines, "PublicKey") == Some(p.publicKey)
      && Lookup(lines, "AllowedIPs") == Some("0.0.0.0/0, ::/0")
      && Lookup(lines, "Endpoint") == Some(if p.endpoint != "" then p.endpoint else DefaultEndpoint)
  {
    BuildLayout(p);
    FileReadBack(p, I1Value());
  }

  lemma InterfaceSectionWith(p: Params, i1: string)
    requires OneLineFields(p) && '\n' !in i1
    ensures Lines(Join(InterfaceLinesWith(p, i1), '\n')) == InterfaceLinesWith(p, i1)
  {
    InterfaceLinesOneLine(p, i1);
    SplitJoin(InterfaceLinesWith(p, i1), '\n');
  }

  /** The interface section on its own splits back into its fifteen lines. */
  lemma InterfaceSectionLines(p: Params)
    requires OneLineFields(p)
    ensures Lines(InterfaceSection(p)) == InterfaceLines(p) && |InterfaceLines(p)| == 15
  {
    var i1 := I1Value();
    InterfaceSectionWith(p, i1);
  }

  /** The peer section on its own splits back into its four lines. */
  lemma PeerSectionLines(p: Params)
    requires OneLineFields(p)
    ensures Lines(PeerSection(p)) == PeerLines(p) && |PeerLines(p)| == 4
  {
    SplitJoin(PeerLines(p), '\n');
  }

  /** Apart from `PrivateKey` and `Address`, every interface line is the same for all inputs. */
  lemma InterfaceLinesFixed(p: Params, q: Params)
    ensures forall i :: 0 <= i < 15 && i != 1 && i != 2 ==> InterfaceLines(p)[i] == InterfaceLines(q)[i]
  {
  }

  /** The junk-packet lines carry the profile's numbers in decimal: `Jc = 120`, `Jmin = 23`, `Jmax = 911`. */
  lemma ProfileLines(p: Params, i1: string)
    ensures InterfaceLinesWith(p, i1)[7] == "Jc = 120"
    ensures InterfaceLinesWith(p, i1)[8] == "Jmin = 23"
    ensures InterfaceLinesWith(p, i1)[9] == "Jmax = 911"
  {
    assert Decimal(120) == Decimal(12) + "0" && Decimal(12) == "12";
    assert Decimal(23) == "23";
    assert Decimal(911) == Decimal(91) + "1" && Decimal(91) == "91";
  }

  /**
   * The text determines what was rendered into it: two renderings that agree agree on the
   * private key, the address pair, the peer key and the effective endpoint.
   */
  lemma RenderedTextDeterminesFields(p: Params, q: Params)
    requires OneLineFields(p) && OneLineFields(q)
    requires Build(p) == Build(q)
    ensures p.privateKey == q.privateKey && p.publicKey == q.publicKey
    ensures p.clientIPv4 + ", " + p.clientIPv6 == q.clientIPv4 + ", " + q.clientIPv6
    ensures EffectiveEndpoint(p.endpoint) == EffectiveEndpoint(q.endpoint)
  {
    ReadBack(p);
    ReadBack(q);
  }
}
