/** Addresses and prefixes as net/netip treats them: bits by family, zones only on
    IPv6, and prefixes that keep the host bits they were written with. */
module Address {

  datatype Addr = NoAddr | V4(bits: seq<bool>) | V6(bits: seq<bool>, zone: string)
  {
    predicate Valid()
    {
      match this case NoAddr => false case V4(b) => |b| == 32 case V6(b, _) => |b| == 128
    }

    predicate Zoned() { V6? && zone != "" }

    /** ::ffff:0:0/96, the IPv4-mapped block. */
    predicate Is4In6()
    {
      V6? && |bits| == 128 && forall i :: 0 <= i < 96 ==> bits[i] == (i >= 80)
    }

    function Unmap(): (a: Addr)
      ensures Valid() ==> a.Valid()
    {
      if Is4In6() then V4(bits[96..]) else this
    }
  }

  /** Exactly the addresses of the mapped block are unmapped, to their last 32 bits; they
      hold 16 ones at the end of the 96 bits before those, and it is undone by putting
      these back. */
  lemma UnmapIs(a: Addr, four: seq<bool>)
    requires |four| == 32
    ensures a.Valid() ==>
              (a.Unmap() == V4(four) <==>
               a == V4(four) || (a.V6? && a.bits == Zeros(80) + seq(16, _ => true) + four))
    ensures !a.Is4In6() ==> a.Unmap() == a
  {
    var block := Zeros(80) + seq(16, _ => true);
    if a.Is4In6() {
      assert a.bits[..96] == block && a.bits == a.bits[..96] + a.bits[96..];
    }
    if a.V6? && a.bits == block + four {
      assert forall i :: 0 <= i < 96 ==> a.bits[i] == block[i];
      assert a.bits[96..] == four;
    }
  }

  function Zeros(n: nat): (z: seq<bool>)
    ensures |z| == n
  {
    seq(n, _ => false)
  }

  datatype Prefix = Prefix(addr: Addr, len: nat)
  {
    predicate Valid() { addr.Valid() && !addr.Zoned() && len <= |addr.bits| }
  }

  const V4_DEFAULT := Prefix(V4(Zeros(32)), 0)
  const V6_DEFAULT := Prefix(V6(Zeros(128), ""), 0)

  predicate SameFamily(a: Addr, b: Addr) { (a.V4? && b.V4?) || (a.V6? && b.V6?) }

  predicate Contains(p: Prefix, a: Addr)
  {
    p.Valid() && a.Valid() && !a.Zoned() && SameFamily(p.addr, a) && a.bits[..p.len] == p.addr.bits[..p.len]
  }

  predicate Overlaps(p: Prefix, q: Prefix)
  {
    p.Valid() && q.Valid() && SameFamily(p.addr, q.addr) &&
    var n := if p.len < q.len then p.len else q.len;
    p.addr.bits[..n] == q.addr.bits[..n]
  }

  /** Two prefixes overlap exactly when some address lies in both. */
  lemma OverlapsMeansShared(p: Prefix, q: Prefix)
    ensures Overlaps(p, q) <==> exists a :: Contains(p, a) && Contains(q, a)
  {
    if Overlaps(p, q) {
      var a := if p.len < q.len then q.addr else p.addr;
      TakeTwice(p.addr.bits, p.len, q.len);
      TakeTwice(q.addr.bits, p.len, q.len);
      assert Contains(p, a) && Contains(q, a);
    }
    if a :| Contains(p, a) && Contains(q, a) {
      TakeTwice(a.bits, p.len, q.len);
      TakeTwice(p.addr.bits, p.len, q.len);
      TakeTwice(q.addr.bits, p.len, q.len);
    }
  }

  lemma TakeTwice(s: seq<bool>, m: nat, n: nat)
    requires m <= |s| && n <= |s|
    ensures m <= n ==> s[..n][..m] == s[..m]
    ensures n <= m ==> s[..m][..n] == s[..n]
  {
  }

  /** Between them the two default routes contain every valid zoneless address. */
  lemma DefaultsCover(a: Addr)
    ensures Contains(V4_DEFAULT, a) || Contains(V6_DEFAULT, a) <==> a.Valid() && !a.Zoned()
  {
  }
}
