// The bits of an address, and the numbers its first bits make.
module AddressBits {
  import opened IPRange

  // Bit j, counted from the front: bit 7 - j % 8 of byte j / 8.
  function Bit(s: seq<byte>, j: nat): nat
    requires j < 8 * |s|
  {
    (s[j / 8] as nat / Pow2(7 - j % 8)) % 2
  }

  // The number made by the first j bits.
  function FirstBits(s: seq<byte>, j: nat): nat
    requires j <= 8 * |s|
  {
    NetworkOf(Value(s), 8 * |s| - j)
  }

  lemma {:induction false} DivAdd(a: nat, b: nat, m: nat)
    requires m > 0
    ensures Div(a * m + b, m) == a + Div(b, m)
  {
    hide Div, Mod;
    DivMod(b, m);
    MulAdd(a, Div(b, m), m);
    ModOf(a + Div(b, m), Mod(b, m), m);
  }

  lemma {:induction false} MulAdd(a: nat, b: nat, m: nat)
    ensures (a + b) * m == a * m + b * m
  {
  }

  // Dividing by a product is dividing twice.
  lemma {:induction false} DivTwice(x: nat, a: nat, m: nat)
    requires a > 0 && m > 0
    ensures a * m > 0 && Div(x, a * m) == Div(Div(x, m), a)
  {
    hide Div, Mod;
    MulAtLeast(a, m);
    var y := Div(x, m);
    DivMod(x, m);
    DivMod(y, a);
    var q, r, r' := Div(y, a), Mod(y, a), Mod(x, m);
    SplitTwice(q, a, r, m, r');
    MulMonotone(r, a - 1, m);
    MulMonotone(a - 1, a, m);
    ModOf(q, r * m + r', a * m);
  }

  lemma {:induction false} SplitTwice(q: nat, a: nat, r: nat, m: nat, r': nat)
    ensures (q * a + r) * m + r' == q * (a * m) + (r * m + r')
  {
    MulAdd(q * a, r, m);
    Associate(q, a, m);
  }

  lemma {:induction false} Associate(x: nat, y: nat, z: nat)
    ensures (x * y) * z == x * (y * z)
  {
  }

  lemma {:induction false} EvenMod(y: nat, z: nat)
    ensures Mod(2 * y + z, 2) == Mod(z, 2)
  {
    hide Div, Mod;
    DivMod(z, 2);
    ModOf(y + Div(z, 2), Mod(z, 2), 2);
  }

  // A bit of the address is a bit of its number.
  lemma {:induction false} BitOfValue(s: seq<byte>, j: nat)
    requires j < 8 * |s|
    ensures Bit(s, j) == Mod(Div(Value(s), Pow2(8 * |s| - j - 1)), 2)
  {
    hide Pow2;
    var n := |s| - 1;
    var front, b := s[..n], s[n] as nat;
    if j / 8 == n {
      LastByteBit(Value(front), b, j % 8);
      assert 8 * |s| - j - 1 == 7 - j % 8;
    } else {
      BitOfValue(front, j);
      assert front[j / 8] == s[j / 8];
      var k := 8 * n - j - 1;
      Pow2Add(k, 8);
      DivTwice(Value(s), Pow2(k), 256);
      EightBits();
      DivAdd(Value(front), b, 256);
      ModSmall(b, 256);
      assert 8 * |s| - j - 1 == k + 8;
    }
  }

  lemma {:induction false} EightBits()
    ensures Pow2(8) == 256
  {
    assert Pow2(4) == 16;
  }

  lemma {:induction false} LastByteBit(v: nat, b: nat, r: nat)
    requires b < 256 && r < 8
    ensures Mod(Div(v * 256 + b, Pow2(7 - r)), 2) == b / Pow2(7 - r) % 2
  {
    hide Pow2;
    var m := Pow2(7 - r);
    EightBits();
    Pow2Add(r + 1, 7 - r);
    Pow2Add(1, r);
    OneBit();
    Associate(v, Pow2(r + 1), m);
    DivAdd(v * Pow2(r + 1), b, m);
    DoubleProduct(Pow2(r), v);
    assert v * Pow2(r + 1) == 2 * (Pow2(r) * v);
    EvenMod(Pow2(r) * v, Div(b, m));
  }

  lemma {:induction false} OneBit()
    ensures Pow2(1) == 2
  {
  }

  // One bit more doubles the number and adds the bit.
  lemma {:induction false} FirstBitsStep(s: seq<byte>, j: nat)
    requires j < 8 * |s|
    ensures FirstBits(s, j + 1) == 2 * FirstBits(s, j) + Bit(s, j)
  {
    hide Pow2, Div, Mod, Value, Bit;
    var m := Pow2(8 * |s| - j - 1);
    BitOfValue(s, j);
    Pow2Add(1, 8 * |s| - j - 1);
    OneBit();
    DivTwice(Value(s), 2, m);
    DivMod(Div(Value(s), m), 2);
  }

  lemma {:induction false} NoBits(s: seq<byte>)
    ensures FirstBits(s, 0) == 0
  {
    hide Pow2, Div, Mod, Value;
    ValueBound(s);
    ModSmall(Value(s), Pow2(8 * |s|));
  }

  // The first bits make the same number if and only if they are the same bits.
  lemma {:induction false} SameFirstBitsIff(a: seq<byte>, b: seq<byte>, j: nat)
    requires |a| == |b| && j <= 8 * |a|
    ensures FirstBits(a, j) == FirstBits(b, j) <==> forall i :: 0 <= i < j ==> Bit(a, i) == Bit(b, i)
  {
    hide FirstBits, Bit;
    if j == 0 {
      NoBits(a);
      NoBits(b);
    } else {
      SameFirstBitsIff(a, b, j - 1);
      FirstBitsStep(a, j - 1);
      FirstBitsStep(b, j - 1);
      BitIsBit(a, j - 1);
      BitIsBit(b, j - 1);
    }
  }

  lemma {:induction false} BitIsBit(s: seq<byte>, j: nat)
    requires j < 8 * |s|
    ensures Bit(s, j) < 2
  {
  }
}
