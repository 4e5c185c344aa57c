/** IPv4 addresses in dotted-quad notation, the form `getHostAddress`
    prints. Of the literals `Inet4Address.getByName` accepts, only this
    four-part form is modelled. */
module Inet4 {
  import opened Wrappers
  import opened Text

  newtype Octet = x: int | 0 <= x < 256

  /** An `Inet4Address`: its four octets, most significant first. */
  datatype Address = Address(a: Octet, b: Octet, c: Octet, d: Octet)

  function Octets(addr: Address): seq<Octet> {
    [addr.a, addr.b, addr.c, addr.d]
  }

  /** The four octets in decimal. */
  function DecimalOctets(addr: Address): (parts: seq<string>)
    ensures |parts| == 4 && forall i :: 0 <= i < 4 ==> parts[i] == Digits(Octets(addr)[i] as nat)
  {
    [Digits(addr.a as nat), Digits(addr.b as nat), Digits(addr.c as nat), Digits(addr.d as nat)]
  }

  /** `getHostAddress()`: the four octets in decimal, joined by dots. */
  function Dotted(addr: Address): string {
    Join(DecimalOctets(addr), '.')
  }

  predicate IsOctetText(part: string) {
    part != [] && AllDigits(part) && DigitsValue(part) < 256
  }

  /** The four-part dotted-quad literal: four dot-separated decimal
      numbers, each below 256. `Inet4Address.getByName` takes more (one- to
      three-part numeric literals, the empty string, host names looked up
      by DNS) and does not read a text longer than 15 characters as a
      literal; this parser covers only the four-part form and refuses the
      rest. */
  function ParseDotted(s: string): (r: Option<Address>)
    ensures r.Some? <==> |Split(s, '.')| == 4 && forall i :: 0 <= i < 4 ==> IsOctetText(Split(s, '.')[i])
    ensures r.Some? ==> forall i :: 0 <= i < 4 ==> Octets(r.value)[i] as nat == DigitsValue(Split(s, '.')[i])
  {
    var parts := Split(s, '.');
    if |parts| == 4 && forall i :: 0 <= i < 4 ==> IsOctetText(parts[i]) then
      Some(Address(DigitsValue(parts[0]) as Octet, DigitsValue(parts[1]) as Octet,
                   DigitsValue(parts[2]) as Octet, DigitsValue(parts[3]) as Octet))
    else None
  }

  lemma DigitsHaveNoDot(n: nat)
    ensures '.' !in Digits(n)
  {
  }

  /** Printing an address and reading it back gives the same four octets. */
  lemma ParseDottedRoundTrip(addr: Address)
    ensures ParseDotted(Dotted(addr)) == Some(addr)
  {
    var octets := Octets(addr);
    var parts := DecimalOctets(addr);
    forall i | 0 <= i < 4
      ensures '.' !in parts[i] && IsOctetText(parts[i]) && DigitsValue(parts[i]) == octets[i] as nat
    {
      DigitsHaveNoDot(octets[i] as nat);
      DigitsRoundTrip(octets[i] as nat);
    }
    SplitJoin(parts, '.');
  }
}
