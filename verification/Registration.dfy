// First-fit allocation of a peer address from an interface's network.
module Registration {
  import opened Wrappers
  import opened IPRange
  import opened AddressBits

  // An allocated range: all addresses that share the first `ones` bits.
  datatype Range = Range(ip: seq<byte>, ones: nat)

  predicate Covers(r: Range, ip: seq<byte>) {
    |r.ip| == |ip| && r.ones <= 8 * |ip| &&
    NetworkOf(Value(r.ip), 8 * |ip| - r.ones) == NetworkOf(Value(ip), 8 * |ip| - r.ones)
  }

  // The address differs from the range in one of the range's first bits, or is
  // of another family.
  ghost predicate Outside(r: Range, ip: seq<byte>) {
    |r.ip| != |ip| || r.ones > 8 * |ip| || exists j :: 0 <= j < r.ones && Bit(r.ip, j) != Bit(ip, j)
  }

  lemma {:induction false} CoversIff(r: Range, ip: seq<byte>)
    ensures Covers(r, ip) <==> !Outside(r, ip)
  {
    hide Bit, NetworkOf, Value;
    if |r.ip| == |ip| && r.ones <= 8 * |ip| {
      SameFirstBitsIff(r.ip, ip, r.ones);
    }
  }

  predicate Taken(ranges: seq<Range>, ip: seq<byte>) {
    exists i :: 0 <= i < |ranges| && Covers(ranges[i], ip)
  }

  // The addresses of a peer row.
  datatype PeerRanges = PeerRanges(iface: string, ip: Option<Range>, ip6: Option<Range>)

  ghost predicate Allocated(rows: seq<PeerRanges>, iface: string, ip: seq<byte>) {
    exists i :: 0 <= i < |rows| && rows[i].iface == iface && RowCovers(rows[i], ip)
  }

  predicate RowCovers(row: PeerRanges, ip: seq<byte>) {
    (row.ip.Some? && Covers(row.ip.value, ip)) || (row.ip6.Some? && Covers(row.ip6.value, ip))
  }

  // No address column of a peer of the interface has the address.
  ghost predicate FreeOf(rows: seq<PeerRanges>, iface: string, ip: seq<byte>) {
    forall i :: 0 <= i < |rows| && rows[i].iface == iface ==>
      && (rows[i].ip.Some? ==> Outside(rows[i].ip.value, ip))
      && (rows[i].ip6.Some? ==> Outside(rows[i].ip6.value, ip))
  }

  lemma {:induction false} FreeIff(rows: seq<PeerRanges>, iface: string, ip: seq<byte>)
    ensures FreeOf(rows, iface, ip) <==> !Allocated(rows, iface, ip)
  {
    hide Covers, Outside;
    forall i | 0 <= i < |rows|
      ensures RowCovers(rows[i], ip) <==>
        || (rows[i].ip.Some? && !Outside(rows[i].ip.value, ip))
        || (rows[i].ip6.Some? && !Outside(rows[i].ip6.value, ip))
    {
      if rows[i].ip.Some? {
        CoversIff(rows[i].ip.value, ip);
      }
      if rows[i].ip6.Some? {
        CoversIff(rows[i].ip6.value, ip);
      }
    }
    hide RowCovers;
  }

  // The ranges of all peers of one interface.
  method AllocatedRanges(rows: seq<PeerRanges>, iface: string) returns (ranges: seq<Range>)
    ensures forall ip :: Taken(ranges, ip) <==> Allocated(rows, iface, ip)
  {
    ranges := [];
    for n := 0 to |rows|
      invariant forall ip :: Taken(ranges, ip) <==> Allocated(rows[..n], iface, ip)
    {
      ghost var before := ranges;
      var row := rows[n];
      if row.iface == iface {
        if row.ip.Some? {
          ranges := ranges + [row.ip.value];
        }
        if row.ip6.Some? {
          ranges := ranges + [row.ip6.value];
        }
      }
      AllocatedGrows(rows, iface, n, before, ranges);
    }
    assert rows[..|rows|] == rows;
  }

  function RowRanges(row: PeerRanges): seq<Range> {
    (if row.ip.Some? then [row.ip.value] else []) + (if row.ip6.Some? then [row.ip6.value] else [])
  }

  lemma {:induction false} AllocatedGrows(
    rows: seq<PeerRanges>, iface: string, n: nat, before: seq<Range>, after: seq<Range>)
    requires n < |rows|
    requires forall ip :: Taken(before, ip) <==> Allocated(rows[..n], iface, ip)
    requires after == if rows[n].iface == iface then before + RowRanges(rows[n]) else before
    ensures forall ip :: Taken(after, ip) <==> Allocated(rows[..n + 1], iface, ip)
  {
    forall ip ensures Taken(after, ip) <==> Allocated(rows[..n + 1], iface, ip) {
      AllocatedStep(rows, iface, n, ip);
      if rows[n].iface == iface {
        TakenConcat(before, RowRanges(rows[n]), ip);
        RowTaken(rows[n], ip);
      }
    }
  }

  lemma {:induction false} AllocatedStep(rows: seq<PeerRanges>, iface: string, n: nat, ip: seq<byte>)
    requires n < |rows|
    ensures Allocated(rows[..n + 1], iface, ip) <==>
      Allocated(rows[..n], iface, ip) || (rows[n].iface == iface && RowCovers(rows[n], ip))
  {
    var now, next := rows[..n], rows[..n + 1];
    if Allocated(now, iface, ip) {
      var i :| 0 <= i < |now| && now[i].iface == iface && RowCovers(now[i], ip);
      assert next[i] == now[i];
    }
    if rows[n].iface == iface && RowCovers(rows[n], ip) {
      assert next[n] == rows[n];
    }
    if Allocated(next, iface, ip) {
      var i :| 0 <= i < |next| && next[i].iface == iface && RowCovers(next[i], ip);
      assert i < n ==> now[i] == next[i];
    }
  }

  lemma {:induction false} RowTaken(row: PeerRanges, ip: seq<byte>)
    ensures Taken(RowRanges(row), ip) <==> RowCovers(row, ip)
  {
    var ranges := RowRanges(row);
    if row.ip.Some? && Covers(row.ip.value, ip) {
      assert ranges[0] == row.ip.value;
    }
    if row.ip6.Some? && Covers(row.ip6.value, ip) {
      assert ranges[|ranges| - 1] == row.ip6.value;
    }
  }

  lemma {:induction false} TakenConcat(a: seq<Range>, b: seq<Range>, ip: seq<byte>)
    ensures Taken(a + b, ip) <==> Taken(a, ip) || Taken(b, ip)
  {
    var all := a + b;
    if Taken(a, ip) {
      var i :| 0 <= i < |a| && Covers(a[i], ip);
      assert all[i] == a[i];
    }
    if Taken(b, ip) {
      var i :| 0 <= i < |b| && Covers(b[i], ip);
      assert all[|a| + i] == b[i];
    }
  }

  // The i-th generated address exists and is covered.
  predicate TakenAt(base: seq<byte>, h: nat, taken: seq<Range>, i: nat) {
    Generated(base, h, i).Some? && Taken(taken, Generated(base, h, i).value)
  }

  // The i-th generated address exists and is the first that no range covers.
  ghost predicate FirstFree(base: seq<byte>, h: nat, taken: seq<Range>, i: nat) {
    && Generated(base, h, i).Some? && !TakenAt(base, h, taken, i)
    && forall j: nat :: j < i ==> TakenAt(base, h, taken, j)
  }

  ghost predicate IsFirstFree(base: seq<byte>, h: nat, taken: seq<Range>, ip: seq<byte>) {
    exists i: nat :: FirstFree(base, h, taken, i) && Generated(base, h, i) == Some(ip)
  }

  ghost predicate Exhausted(base: seq<byte>, h: nat, taken: seq<Range>) {
    forall i: nat :: i < Yield(h) ==> TakenAt(base, h, taken, i)
  }

  // The first generated address that no range covers; none if and only if all
  // generated addresses are covered. Always ends.
  method NextFreeIP(ip: array<byte>, ones: nat, bits: nat, taken: seq<Range>) returns (free: Option<seq<byte>>)
    requires ones <= bits
    ensures free.Some? ==> IsFirstFree(ip[..], bits - ones, taken, free.value)
    ensures free.Some? ==> forall k :: 0 <= k < |taken| ==> Outside(taken[k], free.value)
    ensures free.None? <==> Exhausted(ip[..], bits - ones, taken)
  {
    var g := new Generator(ip, ones, bits);
    ghost var base, h := ip[..], bits - ones;
    ghost var i: nat := 0;
    while true
      invariant g.Valid() && fresh(g) && fresh(g.current)
      invariant g.base == base && g.hostBits == h && g.Calls() == i <= Yield(h)
      invariant ip[..] == base
      invariant forall j: nat :: j < i ==> TakenAt(base, h, taken, j)
      decreases Yield(h) - i
    {
      var next := g.Next();
      if next.None? {
        return None;
      }
      var candidate := next.value[..];
      assert Generated(base, h, i) == Some(candidate);
      if !Taken(taken, candidate) {
        assert !TakenAt(base, h, taken, i) && FirstFree(base, h, taken, i);
        forall k | 0 <= k < |taken| ensures Outside(taken[k], candidate) {
          CoversIff(taken[k], candidate);
        }
        return Some(candidate);
      }
      i := i + 1;
    }
  }

  // The allocator as a whole: an address free of every peer of the interface,
  // and a host address of the interface's network when its stored address is
  // the network address.
  method Allocate(rows: seq<PeerRanges>, iface: string, ip: array<byte>, ones: nat, bits: nat)
    returns (free: Option<seq<byte>>)
    requires ones <= bits && bits - ones <= 8 * ip.Length
    ensures free.Some? ==> FreeOf(rows, iface, free.value)
    ensures free.Some? && Offset(Value(ip[..]), bits - ones) == 0 ==> IsHost(ip[..], bits - ones, Value(free.value))
    ensures free.None? && Offset(Value(ip[..]), bits - ones) == 0 ==>
      forall a: seq<byte> :: |a| == ip.Length && IsHost(ip[..], bits - ones, Value(a)) ==> !FreeOf(rows, iface, a)
  {
    hide FreeOf, Covers, RowCovers;
    var taken := AllocatedRanges(rows, iface);
    free := NextFreeIP(ip, ones, bits, taken);
    ghost var base, h := ip[..], bits - ones;
    if free.Some? {
      FreeIff(rows, iface, free.value);
    }
    if Offset(Value(base), h) == 0 {
      YieldsHostsIff(base, h);
      if free.Some? {
        var i: nat :| FirstFree(base, h, taken, i) && Generated(base, h, i) == free;
        assert Nth(base, i) == Value(free.value);
        assert Yields(base, h, Value(free.value));
      } else {
        forall a: seq<byte> | |a| == |base| && IsHost(base, h, Value(a)) ensures !FreeOf(rows, iface, a) {
          FreeIff(rows, iface, a);
          assert Yields(base, h, Value(a));
          var i: nat :| i < Yield(h) && Nth(base, i) == Value(a);
          assert TakenAt(base, h, taken, i);
          ValueInjective(a, Bump(base, i + 1));
        }
      }
    }
  }
}
