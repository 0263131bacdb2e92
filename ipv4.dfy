/**
 * Dotted-quad IPv4 addresses as Python's `ipaddress.ip_address` reads
 * them, with the address classes the analyzers ask about
 * (`is_private`, `is_loopback`, `is_multicast`).
 */
module Ipv4 {
  import opened Common

  datatype Address = Address(a: nat, b: nat, c: nat, d: nat)

  predicate ValidAddress(x: Address)
  {
    x.a < 256 && x.b < 256 && x.c < 256 && x.d < 256
  }

  /**
   * One octet: 1 to 3 ASCII digits, no leading zero unless the octet is
   * "0", value at most 255; anything else fails.
   */
  function ParseOctet(s: string): (r: Option<nat>)
    ensures r.Some? ==> r.value < 256
  {
    if !IsDigits(s) || |s| > 3 || (s != "0" && s[0] == '0') then None
    else if DigitsValue(s) > 255 then None
    else Some(DigitsValue(s))
  }

  /** `ipaddress.IPv4Address(s)`: exactly four octets separated by '.'. */
  function Parse(s: string): (r: Option<Address>)
    ensures r.Some? ==> ValidAddress(r.value)
  {
    var parts := Split(s, '.');
    if |parts| != 4 then None
    else
      match (ParseOctet(parts[0]), ParseOctet(parts[1]), ParseOctet(parts[2]), ParseOctet(parts[3]))
      case (Some(a), Some(b), Some(c), Some(d)) => Some(Address(a, b, c, d))
      case _ => None
  }

  function Format(x: Address): string
  {
    NatToString(x.a) + "." + NatToString(x.b) + "." + NatToString(x.c) + "." + NatToString(x.d)
  }

  lemma {:induction false} NatToStringShape(n: nat)
    ensures n < 10 ==> |NatToString(n)| == 1
    ensures 10 <= n < 100 ==> |NatToString(n)| == 2
    ensures 100 <= n < 1000 ==> |NatToString(n)| == 3
    ensures n > 0 ==> NatToString(n)[0] != '0'
    ensures '.' !in NatToString(n)
  {
    if n >= 10 {
      NatToStringShape(n / 10);
      assert NatToString(n)[0] == NatToString(n / 10)[0];
    }
  }

  lemma OctetRoundTrip(n: nat)
    requires n < 256
    ensures ParseOctet(NatToString(n)) == Some(n)
  {
    NatToStringShape(n);
    DigitsValueOfNatToString(n);
    if n == 0 {
      assert NatToString(n) == "0";
    }
  }

  /** Every valid address reads back from its dotted-quad text. */
  lemma ParseFormat(x: Address)
    requires ValidAddress(x)
    ensures Parse(Format(x)) == Some(x)
  {
    NatToStringShape(x.a);
    NatToStringShape(x.b);
    NatToStringShape(x.c);
    NatToStringShape(x.d);
    SplitFour(NatToString(x.a), NatToString(x.b), NatToString(x.c), NatToString(x.d));
    OctetRoundTrip(x.a);
    OctetRoundTrip(x.b);
    OctetRoundTrip(x.c);
    OctetRoundTrip(x.d);
  }

  /** Four dot-free pieces joined by dots split back into those pieces. */
  lemma SplitFour(sa: string, sb: string, sc: string, sd: string)
    requires '.' !in sa && '.' !in sb && '.' !in sc && '.' !in sd
    ensures Split(sa + "." + sb + "." + sc + "." + sd, '.') == [sa, sb, sc, sd]
  {
    var tail3 := sc + ['.'] + sd;
    var tail2 := sb + ['.'] + tail3;
    assert sa + "." + sb + "." + sc + "." + sd == sa + ['.'] + tail2;
    SplitNone(sd, '.');
    SplitPiece(sc, '.', sd);
    SplitPiece(sb, '.', tail3);
    SplitPiece(sa, '.', tail2);
  }

  predicate IsLoopback(x: Address)
  {
    x.a == 127
  }

  predicate IsMulticast(x: Address)
  {
    224 <= x.a < 240
  }

  /**
   * CPython's IPv4 private-network table: 0/8, 10/8, 127/8, 169.254/16,
   * 172.16/12, 192.0.0/24 (without 192.0.0.9 and 192.0.0.10), 192.0.2/24,
   * 192.168/16, 198.18/15, 198.51.100/24, 203.0.113/24, 240/4 and
   * 255.255.255.255 (the last inside 240/4; 192.0.0.170/31 inside
   * 192.0.0/24).
   */
  predicate IsPrivate(x: Address)
  {
    || x.a == 0
    || x.a == 10
    || x.a == 127
    || (x.a == 169 && x.b == 254)
    || (x.a == 172 && 16 <= x.b < 32)
    || (x.a == 192 && x.b == 0 && x.c == 0 && x.d != 9 && x.d != 10)
    || (x.a == 192 && x.b == 0 && x.c == 2)
    || (x.a == 192 && x.b == 168)
    || (x.a == 198 && (x.b == 18 || x.b == 19))
    || (x.a == 198 && x.b == 51 && x.c == 100)
    || (x.a == 203 && x.b == 0 && x.c == 113)
    || x.a >= 240
  }

  /** `ip.is_private or ip.is_loopback`; False when the text does not parse. */
  predicate IsInternal(s: string)
  {
    match Parse(s)
    case Some(x) => IsPrivate(x) || IsLoopback(x)
    case None => false
  }

  /** The three blocks of section 3 of RFC 1918 and the loopback block are internal. */
  lemma InternalBlocks(x: Address)
    requires ValidAddress(x)
    requires x.a == 10 || (x.a == 172 && 16 <= x.b < 32) || (x.a == 192 && x.b == 168) || x.a == 127
    ensures IsInternal(Format(x))
  {
    ParseFormat(x);
  }

  /** Public unicast space such as 8.8.8.8 is external. */
  lemma ExternalExample()
    ensures !IsInternal("8.8.8.8")
  {
    ParseFormat(Address(8, 8, 8, 8));
    assert Format(Address(8, 8, 8, 8)) == "8.8.8.8";
  }
}
