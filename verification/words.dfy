/** Little-endian 32-bit words and their four bytes. */
module Words {
  function Join(a: bv8, b: bv8, c: bv8, d: bv8): bv32
  {
    (a as bv32) | ((b as bv32) << 8) | ((c as bv32) << 16) | ((d as bv32) << 24)
  }

  function Byte0(n: bv32): bv8 { (n & 0xFF) as bv8 }

  function Byte1(n: bv32): bv8 { ((n >> 8) & 0xFF) as bv8 }

  function Byte2(n: bv32): bv8 { ((n >> 16) & 0xFF) as bv8 }

  function Byte3(n: bv32): bv8 { ((n >> 24) & 0xFF) as bv8 }

  lemma WordReads(n: bv32)
    ensures Join(Byte0(n), Byte1(n), Byte2(n), Byte3(n)) == n
  {
  }

  lemma JoinInjective(a: bv8, b: bv8, c: bv8, d: bv8, e: bv8, f: bv8, g: bv8, h: bv8)
    requires Join(a, b, c, d) == Join(e, f, g, h)
    ensures a == e && b == f && c == g && d == h
  {
  }

  lemma XorInjective(c: bv32, d: bv32, x: bv8, y: bv8)
    requires c ^ (x as bv32) == d ^ (y as bv32)
    ensures (x == y ==> c == d) && (c == d ==> x == y)
  {
  }
}
