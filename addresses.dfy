/** Reference definition of the blocked IPv4 space, by address arithmetic over
    CIDR blocks rather than by octet comparisons. */
module Addresses {

  /** The 32-bit address of four octets. */
  function Address(a: nat, b: nat, c: nat, d: nat): nat {
    a * 0x100_0000 + b * 0x1_0000 + c * 0x100 + d
  }

  /** The number of addresses in a /8, a /12 and a /16 block. */
  const Slash8: nat := 0x100_0000
  const Slash12: nat := 0x10_0000
  const Slash16: nat := 0x1_0000

  /** `address` lies in the CIDR block starting at `network` holding `size` addresses. */
  predicate InBlock(address: nat, network: nat, size: nat) {
    network <= address < network + size
  }

  /** The blocked IPv4 space: 0.0.0.0/8 and 127.0.0.0/8 (RFC 1122, section
      3.2.1.3; the loopback block only without `localhost`), 10.0.0.0/8,
      172.16.0.0/12 and 192.168.0.0/16 (RFC 1918, section 3), and
      169.254.0.0/16 (RFC 3927). */
  predicate ReservedAddress(address: nat, localhost: bool) {
    || InBlock(address, 0x0000_0000, Slash8)   // 0.0.0.0/8
    || InBlock(address, 0x0A00_0000, Slash8)   // 10.0.0.0/8
    || InBlock(address, 0xAC10_0000, Slash12)  // 172.16.0.0/12
    || InBlock(address, 0xC0A8_0000, Slash16)  // 192.168.0.0/16
    || InBlock(address, 0xA9FE_0000, Slash16)  // 169.254.0.0/16
    || (!localhost && InBlock(address, 0x7F00_0000, Slash8))  // 127.0.0.0/8
  }

  /** An address is its 16-bit prefix times 2^16 plus a low part; a block
      aligned on 2^16 holds it exactly when the prefix lies in the block's
      prefix range. */
  lemma PrefixRange(prefix: nat, low: nat, first: nat, last: nat)
    requires low < 0x1_0000
    ensures first * 0x1_0000 <= prefix * 0x1_0000 + low < (last + 1) * 0x1_0000 <==> first <= prefix <= last
  {
    if prefix < first {
      assert prefix * 0x1_0000 <= (first - 1) * 0x1_0000;
    }
    if prefix > last {
      assert prefix * 0x1_0000 >= (last + 1) * 0x1_0000;
    }
  }

  /** The 16-bit prefix `a.b` lies between `x.lo` and `x.hi` exactly when
      `a == x` and `lo <= b <= hi`. */
  lemma OctetPairRange(a: nat, b: nat, x: nat, lo: nat, hi: nat)
    requires b < 256 && hi < 256
    ensures x * 256 + lo <= a * 256 + b <= x * 256 + hi <==> a == x && lo <= b <= hi
  {
    if a < x {
      assert a * 256 <= (x - 1) * 256;
    }
    if a > x {
      assert a * 256 >= (x + 1) * 256;
    }
  }

  /** `a.b.c.d` lies in the block of the addresses whose first octet is `x`
      and whose second lies in `lo..hi` exactly when `a == x` and
      `lo <= b <= hi`. */
  lemma BlockByOctets(a: nat, b: nat, c: nat, d: nat, x: nat, lo: nat, hi: nat)
    requires b <= 255 && c <= 255 && d <= 255 && lo <= hi <= 255
    ensures InBlock(Address(a, b, c, d), (x * 256 + lo) * 0x1_0000, (hi - lo + 1) * 0x1_0000) <==>
            a == x && lo <= b <= hi
  {
    var prefix := a * 256 + b;
    var low := c * 0x100 + d;
    assert Address(a, b, c, d) == prefix * 0x1_0000 + low;
    assert (x * 256 + lo) * 0x1_0000 + (hi - lo + 1) * 0x1_0000 == (x * 256 + hi + 1) * 0x1_0000;
    PrefixRange(prefix, low, x * 256 + lo, x * 256 + hi);
    OctetPairRange(a, b, x, lo, hi);
  }

  /** Membership in the blocked space, read off the first two octets. */
  lemma ReservedByOctets(a: nat, b: nat, c: nat, d: nat, localhost: bool)
    requires a <= 255 && b <= 255 && c <= 255 && d <= 255
    ensures ReservedAddress(Address(a, b, c, d), localhost) <==>
            || a == 0
            || a == 10
            || (a == 172 && 16 <= b <= 31)
            || (a == 192 && b == 168)
            || (a == 169 && b == 254)
            || (!localhost && a == 127)
  {
    var address := Address(a, b, c, d);
    assert InBlock(address, 0x0000_0000, Slash8) <==> a == 0 by {
      BlockByOctets(a, b, c, d, 0, 0, 255);
    }
    assert InBlock(address, 0x0A00_0000, Slash8) <==> a == 10 by {
      BlockByOctets(a, b, c, d, 10, 0, 255);
    }
    assert InBlock(address, 0xAC10_0000, Slash12) <==> a == 172 && 16 <= b <= 31 by {
      BlockByOctets(a, b, c, d, 172, 16, 31);
    }
    assert InBlock(address, 0xC0A8_0000, Slash16) <==> a == 192 && b == 168 by {
      BlockByOctets(a, b, c, d, 192, 168, 168);
    }
    assert InBlock(address, 0xA9FE_0000, Slash16) <==> a == 169 && b == 254 by {
      BlockByOctets(a, b, c, d, 169, 254, 254);
    }
    assert InBlock(address, 0x7F00_0000, Slash8) <==> a == 127 by {
      BlockByOctets(a, b, c, d, 127, 0, 255);
    }
  }
}
