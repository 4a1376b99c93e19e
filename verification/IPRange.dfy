// The address generator: big-endian increment of a byte array, and a counter
// that skips the network and the broadcast address.
module IPRange {
  import opened Wrappers

  newtype byte = x: int | 0 <= x < 256

  function Pow2(k: nat): (p: nat)
    ensures p > 0
  {
    if k == 0 then 1 else 2 * Pow2(k - 1)
  }

  lemma {:induction false} Pow2Add(a: nat, b: nat)
    ensures Pow2(a + b) == Pow2(a) * Pow2(b)
  {
    if a != 0 {
      Pow2Add(a - 1, b);
      DoubleProduct(Pow2(a - 1), Pow2(b));
    }
  }

  lemma {:induction false} DoubleProduct(x: nat, y: nat)
    ensures (2 * x) * y == 2 * (x * y)
  {
  }

  lemma {:induction false} Pow2AtLeast2(k: nat)
    requires k >= 1
    ensures Pow2(k) >= 2
  {
  }

  lemma {:induction false} Pow2Bytes(n: nat)
    ensures Pow2(8 * (n + 1)) == Pow2(8 * n) * 256
  {
    Pow2Add(8 * n, 8);
    assert Pow2(8) == 256;
  }

  // ---------------------------------------------------------------- quotient and remainder

  function Div(x: nat, m: nat): nat
    requires m > 0
  {
    x / m
  }

  function Mod(x: nat, m: nat): (r: nat)
    requires m > 0
    ensures r < m
  {
    x % m
  }

  lemma {:induction false} DivMod(x: nat, m: nat)
    requires m > 0
    ensures x == Div(x, m) * m + Mod(x, m)
  {
  }

  lemma {:induction false} MulAtLeast(d: nat, m: nat)
    requires d >= 1
    ensures d * m >= m
  {
    assert d * m == (d - 1) * m + m;
  }

  lemma {:induction false} MulMonotone(a: nat, b: nat, m: nat)
    requires a <= b
    ensures a * m <= b * m
    ensures (b - a) * m == b * m - a * m
    ensures (a + 1) * m == a * m + m
  {
    assert b * m == a * m + (b - a) * m;
  }

  lemma {:induction false} Quotient(q1: nat, r1: nat, q2: nat, r2: nat, m: nat)
    requires q1 * m + r1 == q2 * m + r2 && r1 < m && r2 < m
    ensures q1 == q2 && r1 == r2
  {
    if q1 < q2 {
      MulMonotone(q1, q2, m);
      MulAtLeast(q2 - q1, m);
    } else if q2 < q1 {
      MulMonotone(q2, q1, m);
      MulAtLeast(q1 - q2, m);
    }
  }

  // Quotient and remainder are the only way to split a number.
  lemma {:induction false} ModOf(q: nat, r: nat, m: nat)
    requires r < m
    ensures Mod(q * m + r, m) == r && Div(q * m + r, m) == q
  {
    var x := q * m + r;
    DivMod(x, m);
    hide Div, Mod;
    Quotient(q, r, Div(x, m), Mod(x, m), m);
  }

  lemma {:induction false} ModSmall(r: nat, m: nat)
    requires r < m
    ensures Mod(r, m) == r && Div(r, m) == 0
  {
    ModOf(0, r, m);
  }

  lemma {:induction false} ModNext(q: nat, m: nat)
    requires m > 0
    ensures Mod(q * m, m) == 0 && Div(q * m, m) == q
  {
    ModOf(q, 0, m);
  }

  // ---------------------------------------------------------------- addresses as numbers

  function Value(s: seq<byte>): nat {
    if s == [] then 0 else Value(s[..|s| - 1]) * 256 + s[|s| - 1] as int
  }

  // The number of addresses of n bytes.
  function Space(n: nat): (p: nat)
    ensures p > 0
  {
    Pow2(8 * n)
  }

  lemma {:induction false} ValueBound(s: seq<byte>)
    ensures Value(s) < Space(|s|)
  {
    if s != [] {
      ValueBound(s[..|s| - 1]);
      Pow2Bytes(|s| - 1);
    }
  }

  // The number determines the bytes.
  lemma {:induction false} ValueInjective(a: seq<byte>, b: seq<byte>)
    requires |a| == |b| && Value(a) == Value(b)
    ensures a == b
  {
    if a != [] {
      var fa, fb := a[..|a| - 1], b[..|b| - 1];
      var la, lb := a[|a| - 1] as int, b[|b| - 1] as int;
      assert Value(fa) * 256 + la == Value(fb) * 256 + lb;
      ValueInjective(fa, fb);
      assert a == fa + [a[|a| - 1]] && b == fb + [b[|b| - 1]];
    }
  }

  // ---------------------------------------------------------------- increment

  function IncByte(b: byte): byte {
    if b == 255 then 0 else b + 1
  }

  // Increment with carry from the last byte; all 255 wraps to all 0.
  function Incremented(s: seq<byte>): (r: seq<byte>)
    ensures |r| == |s|
  {
    if s == [] then []
    else
      var last := IncByte(s[|s| - 1]);
      if last != 0 then s[..|s| - 1] + [last] else Incremented(s[..|s| - 1]) + [last]
  }

  // The increment adds one, modulo the address space.
  lemma {:induction false} IncrementedAddsOne(s: seq<byte>)
    ensures Value(Incremented(s)) == if Value(s) + 1 == Space(|s|) then 0 else Value(s) + 1
  {
    if s != [] {
      var front, last := s[..|s| - 1], s[|s| - 1];
      IncrementedAddsOne(front);
      Pow2Bytes(|s| - 1);
      var r := Incremented(s);
      assert r[..|s| - 1] == if IncByte(last) != 0 then front else Incremented(front);
      ValueBound(front);
    }
  }

  method IncrementIP(ip: array<byte>)
    modifies ip
    ensures ip[..] == Incremented(old(ip[..]))
  {
    ghost var was := ip[..];
    var i := ip.Length - 1;
    assert was[..i + 1] == was;
    while i >= 0
      invariant -1 <= i < ip.Length
      invariant ip[..i + 1] == was[..i + 1]
      invariant Incremented(was) == Incremented(was[..i + 1]) + ip[i + 1..]
    {
      ghost var rest := ip[i + 1..];
      IncrementedStep(was[..i + 1]);
      assert was[..i + 1][..i] == was[..i] && was[..i + 1][i] == ip[i];
      ip[i] := IncByte(ip[i]);
      assert ip[i..] == [ip[i]] + rest;
      if ip[i] != 0 {
        assert ip[..] == was[..i] + ip[i..];
        return;
      }
      i := i - 1;
    }
  }

  lemma {:induction false} IncrementedStep(s: seq<byte>)
    requires s != []
    ensures
      var front, last := s[..|s| - 1], IncByte(s[|s| - 1]);
      Incremented(s) == if last != 0 then front + [last] else Incremented(front) + [last]
  {
  }

  // ---------------------------------------------------------------- the generated sequence

  // The k-th address after base.
  function Bump(base: seq<byte>, k: nat): (r: seq<byte>)
    ensures |r| == |base|
  {
    if k == 0 then base else Incremented(Bump(base, k - 1))
  }

  lemma {:induction false} BumpAdds(base: seq<byte>, k: nat)
    ensures Value(Bump(base, k)) == Mod(Value(base) + k, Space(|base|))
  {
    hide Value, Space, Mod, Incremented;
    ValueBound(base);
    if k != 0 {
      BumpAdds(base, k - 1);
      IncrementedAddsOne(Bump(base, k - 1));
      ModStep(Value(base) + k - 1, Space(|base|));
    } else {
      ModSmall(Value(base), Space(|base|));
    }
  }

  lemma {:induction false} ModStep(a: nat, m: nat)
    requires m > 0
    ensures Mod(a + 1, m) == if Mod(a, m) + 1 == m then 0 else Mod(a, m) + 1
  {
    hide Mod, Div;
    var q, r := Div(a, m), Mod(a, m);
    DivMod(a, m);
    if r + 1 == m {
      MulMonotone(q, q, m);
      ModNext(q + 1, m);
    } else {
      ModOf(q, r + 1, m);
    }
  }

  // How many addresses a network with h host bits yields.
  function Yield(h: nat): nat {
    if Pow2(h) < 2 then 0 else Pow2(h) - 2
  }

  // The result of the i-th call of Next.
  function Generated(base: seq<byte>, h: nat, i: nat): Option<seq<byte>> {
    if i < Yield(h) then Some(Bump(base, i + 1)) else None
  }

  class Generator {
    const count: int
    var idx: int
    const current: array<byte>
    ghost const base: seq<byte>
    ghost const hostBits: nat

    // Calls of Next so far.
    ghost function Calls(): int
      reads this
    {
      idx - 1
    }

    ghost predicate Valid()
      reads this, current
    {
      && idx >= 1 && count == Pow2(hostBits) - 1
      && current[..] == Bump(base, 1 + if Calls() <= Yield(hostBits) then Calls() else Yield(hostBits))
    }

    // From the address and the mask size of a network.
    constructor (ip: array<byte>, ones: nat, bits: nat)
      requires ones <= bits
      ensures Valid() && fresh(current) && Calls() == 0
      ensures base == old(ip[..]) && hostBits == bits - ones
    {
      var newIP := new byte[ip.Length](i requires 0 <= i < ip.Length reads ip => ip[i]);
      assert newIP[..] == ip[..];
      IncrementIP(newIP);
      var power := PowerOfTwo(bits - ones);
      count := power - 1;
      idx := 1;
      current := newIP;
      base, hostBits := old(ip[..]), bits - ones;
      new;
      assert Bump(base, 1) == Incremented(Bump(base, 0));
    }

    method Next() returns (ip: Option<array<byte>>)
      requires Valid()
      modifies this`idx, current
      ensures Valid() && Calls() == old(Calls()) + 1
      ensures ip.Some? <==> Generated(base, hostBits, old(Calls())).Some?
      ensures ip.Some? ==> fresh(ip.value) && Generated(base, hostBits, old(Calls())) == Some(ip.value[..])
    {
      idx := idx + 1;
      if idx > count {
        return None;
      }
      var copy := new byte[current.Length](i requires 0 <= i < current.Length reads current => current[i]);
      assert copy[..] == current[..];
      IncrementIP(current);
      ip := Some(copy);
    }
  }

  method PowerOfTwo(k: nat) returns (p: nat)
    ensures p == Pow2(k)
  {
    p := 1;
    for i := 0 to k
      invariant p == Pow2(i)
    {
      p := 2 * p;
    }
  }

  // ---------------------------------------------------------------- what it generates

  lemma {:induction false} DistinctMod(a: nat, d: nat, m: nat)
    requires 0 < d < m
    ensures Mod(a + d, m) != Mod(a, m)
  {
    hide Mod, Div;
    var q, r := Div(a, m), Mod(a, m);
    DivMod(a, m);
    if r + d < m {
      ModOf(q, r + d, m);
    } else {
      MulMonotone(q, q, m);
      ModOf(q + 1, r + d - m, m);
    }
  }

  // A network is a whole number of times contained in the address space.
  lemma {:induction false} NetworksFit(base: seq<byte>, h: nat)
    requires h <= 8 * |base|
    ensures Space(|base|) == Pow2(8 * |base| - h) * Pow2(h)
    ensures Pow2(h) <= Space(|base|)
    ensures Div(Value(base), Pow2(h)) < Pow2(8 * |base| - h)
  {
    hide Div, Mod, Value;
    var v, m, k := Value(base), Pow2(h), Pow2(8 * |base| - h);
    Pow2Add(8 * |base| - h, h);
    MulAtLeast(k, m);
    ValueBound(base);
    DivMod(v, m);
    if Div(v, m) >= k {
      MulMonotone(k, Div(v, m), m);
      assert false;
    }
  }

  lemma {:induction false} NetworkFits(base: seq<byte>, h: nat)
    requires h <= 8 * |base|
    ensures Pow2(h) <= Space(|base|)
  {
    NetworksFit(base, h);
  }

  // Generated addresses count up from the base, modulo the address space.
  lemma {:induction false} GeneratedNumbers(base: seq<byte>, h: nat, i: nat)
    requires i < Yield(h)
    ensures Value(Generated(base, h, i).value) == Mod(Value(base) + (i + 1), Space(|base|))
  {
    hide Mod, Div, Value, Space, Bump, Pow2, Incremented;
    BumpAdds(base, i + 1);
  }

  // They are all different.
  lemma {:induction false} GeneratedDistinct(base: seq<byte>, h: nat, i: nat, j: nat)
    requires h <= 8 * |base|
    requires i < j < Yield(h)
    ensures Generated(base, h, i) != Generated(base, h, j)
  {
    hide Mod, Div, Value, Space, Bump, Pow2, Incremented;
    GeneratedNumbers(base, h, i);
    GeneratedNumbers(base, h, j);
    NetworkFits(base, h);
    var a, d := Value(base) + (i + 1), j - i;
    assert a + d == Value(base) + (j + 1);
    DistinctMod(a, d, Space(|base|));
  }

  // The network of an address, by its number.
  function NetworkOf(x: nat, h: nat): nat {
    Div(x, Pow2(h))
  }

  // The position of an address within its network.
  function Offset(x: nat, h: nat): nat {
    Mod(x, Pow2(h))
  }

  // The number of the i-th address generated.
  function Nth(base: seq<byte>, i: nat): nat {
    Value(Bump(base, i + 1))
  }

  ghost predicate StaysInNetwork(base: seq<byte>, h: nat) {
    forall i: nat {:trigger Nth(base, i)} :: i < Yield(h) ==> NetworkOf(Nth(base, i), h) == NetworkOf(Value(base), h)
  }

  // Host addresses: in the network, neither the first nor the last.
  predicate IsHost(base: seq<byte>, h: nat, x: nat) {
    NetworkOf(x, h) == NetworkOf(Value(base), h) && 0 < Offset(x, h) < Pow2(h) - 1
  }

  ghost predicate Yields(base: seq<byte>, h: nat, x: nat) {
    exists i: nat {:trigger Nth(base, i)} :: i < Yield(h) && Nth(base, i) == x
  }

  ghost predicate YieldsHosts(base: seq<byte>, h: nat) {
    forall x: nat :: Yields(base, h, x) <==> IsHost(base, h, x)
  }

  // A generated address that does not leave the network.
  lemma {:induction false} InsideNetwork(base: seq<byte>, h: nat, i: nat)
    requires h <= 8 * |base| && Offset(Value(base), h) + 1 + i < Pow2(h)
    ensures Nth(base, i) == Value(base) + 1 + i
    ensures NetworkOf(Value(base) + 1 + i, h) == NetworkOf(Value(base), h)
    ensures Offset(Value(base) + 1 + i, h) == Offset(Value(base), h) + 1 + i
  {
    hide Div, Mod, Value, Space, Bump, Pow2, Incremented;
    var v, m, k := Value(base), Pow2(h), Pow2(8 * |base| - h);
    var q, o := Div(v, m), Mod(v, m);
    DivMod(v, m);
    ModOf(q, o + 1 + i, m);
    BumpAdds(base, i + 1);
    NetworksFit(base, h);
    MulMonotone(q + 1, k, m);
    MulMonotone(q, q, m);
    ModSmall(v + 1 + i, Space(|base|));
  }

  // The generator never leaves its network if and only if the base is at most
  // one past the network address, or there is nowhere to go.
  lemma {:induction false} StaysInNetworkIff(base: seq<byte>, h: nat)
    requires h <= 8 * |base|
    ensures StaysInNetwork(base, h) <==> Offset(Value(base), h) <= 1 || h == 8 * |base|
  {
    hide Div, Mod, Value, Bump, Pow2, Nth, NetworkOf, Offset;
    if Offset(Value(base), h) <= 1 {
      forall i: nat | i < Yield(h) ensures NetworkOf(Nth(base, i), h) == NetworkOf(Value(base), h) {
        InsideNetwork(base, h, i);
      }
    } else if h == 8 * |base| {
      forall i: nat | i < Yield(h) ensures NetworkOf(Nth(base, i), h) == NetworkOf(Value(base), h) {
        OneNetwork(base, i);
      }
    } else {
      LeavesNetwork(base, h);
    }
  }

  lemma {:induction false} OneNetwork(base: seq<byte>, i: nat)
    ensures NetworkOf(Nth(base, i), 8 * |base|) == NetworkOf(Value(base), 8 * |base|)
  {
    hide Div, Mod, Value, Bump, Pow2;
    ValueBound(base);
    ValueBound(Bump(base, i + 1));
    ModSmall(Value(base), Pow2(8 * |base|));
    ModSmall(Nth(base, i), Pow2(8 * |base|));
  }

  lemma {:induction false} LeavesNetwork(base: seq<byte>, h: nat)
    requires h < 8 * |base| && Offset(Value(base), h) >= 2
    ensures !StaysInNetwork(base, h)
  {
    var i := Pow2(h) - 1 - Offset(Value(base), h);
    NextNetwork(base, h);
    assert i < Yield(h) && NetworkOf(Nth(base, i), h) != NetworkOf(Value(base), h);
  }

  // The address after the last of the network is in another network, also
  // when it wraps around to zero.
  lemma {:induction false} NextNetwork(base: seq<byte>, h: nat)
    requires h < 8 * |base|
    ensures
      var i := Pow2(h) - 1 - Offset(Value(base), h);
      NetworkOf(Nth(base, i), h) != NetworkOf(Value(base), h)
  {
    hide Div, Mod, Value, Space, Bump, Pow2, Incremented;
    Pow2AtLeast2(8 * |base| - h);
    NetworksFit(base, h);
    BumpAdds(base, Pow2(h) - Mod(Value(base), Pow2(h)));
    NextMultiple(Value(base), Pow2(h), Pow2(8 * |base| - h), Space(|base|));
    var i := Pow2(h) - 1 - Offset(Value(base), h);
    assert i + 1 == Pow2(h) - Mod(Value(base), Pow2(h));
  }

  lemma {:induction false} NextMultiple(v: nat, m: nat, k: nat, space: nat)
    requires m > 0 && k >= 2 && space == k * m && Div(v, m) < k && space > 0
    ensures Div(Mod(v + (m - Mod(v, m)), space), m) != Div(v, m)
  {
    hide Div, Mod;
    var q := Div(v, m);
    DivMod(v, m);
    MulMonotone(q, k, m);
    MulMonotone(q + 1, k, m);
    if q + 1 < k {
      MulAtLeast(k - (q + 1), m);
      ModSmall((q + 1) * m, space);
      ModNext(q + 1, m);
    } else {
      ModNext(1, space);
      ModSmall(0, m);
    }
  }

  // The generator yields exactly the host addresses of the network if and only
  // if the base is the network address (or the network has no hosts).
  lemma {:induction false} YieldsHostsIff(base: seq<byte>, h: nat)
    requires h <= 8 * |base|
    ensures YieldsHosts(base, h) <==> Offset(Value(base), h) == 0 || h < 2
  {
    if h < 2 {
      assert Pow2(0) == 1 && Pow2(1) == 2;
    } else if Offset(Value(base), h) == 0 {
      forall x: nat ensures Yields(base, h, x) <==> IsHost(base, h, x) {
        AlignedYields(base, h, x);
      }
    } else {
      MissesHost(base, h);
    }
  }

  lemma {:induction false} AlignedYields(base: seq<byte>, h: nat, x: nat)
    requires h <= 8 * |base| && Offset(Value(base), h) == 0
    ensures Yields(base, h, x) <==> IsHost(base, h, x)
  {
    hide Div, Mod, Value, Bump, Pow2, Nth;
    var v, m := Value(base), Pow2(h);
    DivMod(v, m);
    DivMod(x, m);
    if Yields(base, h, x) {
      var i: nat :| i < Yield(h) && Nth(base, i) == x;
      InsideNetwork(base, h, i);
    }
    if IsHost(base, h, x) {
      var i := Offset(x, h) - 1;
      InsideNetwork(base, h, i);
      assert Nth(base, i) == x;
    }
  }

  // The base itself, or the address before it, is a host that is never yielded.
  lemma {:induction false} MissesHost(base: seq<byte>, h: nat)
    requires 2 <= h <= 8 * |base| && Offset(Value(base), h) != 0
    ensures !YieldsHosts(base, h)
  {
    assert Pow2(h) >= 4 by { assert Pow2(h) == 2 * (2 * Pow2(h - 2)); }
    hide Div, Mod, Value, Bump, Pow2, Nth, Space;
    var v, m, o := Value(base), Pow2(h), Offset(Value(base), h);
    DivMod(v, m);
    var x := if o < m - 1 then v else v - 1;
    if x != v {
      ModOf(Div(v, m), o - 1, m);
    }
    assert IsHost(base, h, x);
    forall i: nat | i < Yield(h) ensures Nth(base, i) != x {
      NeverBelow(base, h, i, v - x);
    }
    assert !Yields(base, h, x);
  }

  lemma {:induction false} NeverBelow(base: seq<byte>, h: nat, i: nat, d: nat)
    requires h <= 8 * |base| && i < Yield(h) && d <= 1 && d <= Value(base)
    ensures Nth(base, i) != Value(base) - d
  {
    hide Div, Mod, Value, Bump, Pow2, Space, Incremented;
    BumpAdds(base, i + 1);
    NetworkFits(base, h);
    ValueBound(base);
    var x := Value(base) - d;
    DistinctMod(x, d + 1 + i, Space(|base|));
    ModSmall(x, Space(|base|));
  }
}
