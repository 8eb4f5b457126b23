/** Unsigned integers as big-endian bytes: the shortest form, and the shift-and-or loop that reads it. */
module BigEndian {
  import opened Base64Url

  /** The bytes of a big integer: most significant first, no leading zero, none at all for zero. */
  function Bytes(n: nat): seq<Byte> {
    if n == 0 then [] else Bytes(n / 256) + [n % 256]
  }

  function FromBytes(b: seq<Byte>): nat {
    if b == [] then 0 else FromBytes(b[..|b| - 1]) * 256 + b[|b| - 1]
  }

  lemma {:induction false} FromBytesBytes(n: nat)
    ensures FromBytes(Bytes(n)) == n
  {
    if n > 0 {
      FromBytesBytes(n / 256);
      assert Bytes(n)[..|Bytes(n)| - 1] == Bytes(n / 256);
    }
  }

  /** Going back drops exactly the leading zeros. */
  lemma {:induction false} BytesFromBytes(b: seq<Byte>)
    ensures Bytes(FromBytes(b)) == b <==> b == [] || b[0] != 0
    ensures FromBytes(b) == 0 <==> forall i | 0 <= i < |b| :: b[i] == 0
  {
    if b != [] {
      var p, x := b[..|b| - 1], b[|b| - 1];
      assert b == p + [x];
      BytesFromBytes(p);
      assert b[|b| - 1] == x && forall i | 0 <= i < |p| :: b[i] == p[i];
      if FromBytes(b) > 0 {
        assert Bytes(FromBytes(b)) == Bytes(FromBytes(p)) + [x];
        assert Bytes(FromBytes(b)) == b <==> Bytes(FromBytes(p)) == p by {
          assert b[..|b| - 1] == p;
          assert Bytes(FromBytes(b))[..|Bytes(FromBytes(b))| - 1] == Bytes(FromBytes(p));
        }
        assert p == [] ==> b[0] == x;
        assert p != [] ==> b[0] == p[0];
      } else {
        assert b[0] == 0;
      }
    }
  }

  function Power(k: nat): nat {
    if k == 0 then 1 else 256 * Power(k - 1)
  }

  lemma {:induction false} BytesLength(n: nat, k: nat)
    ensures |Bytes(n)| <= k <==> n < Power(k)
    decreases k
  {
    if k > 0 {
      BytesLength(n / 256, k - 1);
    }
  }

  lemma {:induction false} FromBytesBound(b: seq<Byte>)
    ensures FromBytes(b) < Power(|b|)
  {
    if b != [] { FromBytesBound(b[..|b| - 1]); }
  }

  // ---- shift and or -----------------------------------------------------------

  function ShiftLeft(v: nat, k: nat): nat {
    if k == 0 then v else 2 * ShiftLeft(v, k - 1)
  }

  function BitOr(a: nat, b: nat): nat {
    if a == 0 && b == 0 then 0
    else 2 * BitOr(a / 2, b / 2) + if a % 2 == 1 || b % 2 == 1 then 1 else 0
  }

  lemma {:induction false} OrZero(a: nat)
    ensures BitOr(a, 0) == a
  {
    if a > 0 { OrZero(a / 2); }
  }

  /** Or-ing into bits that a shift has cleared is addition. */
  lemma {:induction false} OrIntoGap(v: nat, k: nat, b: nat)
    requires b < ShiftLeft(1, k)
    ensures BitOr(ShiftLeft(v, k), b) == ShiftLeft(v, k) + b
    decreases k
  {
    if k == 0 {
      OrZero(v);
    } else {
      OrIntoGap(v, k - 1, b / 2);
    }
  }

  lemma ShiftByEight(v: nat)
    ensures ShiftLeft(v, 8) == 256 * v
  {
    assert ShiftLeft(v, 4) == 2 * ShiftLeft(v, 3) == 4 * ShiftLeft(v, 2) == 8 * ShiftLeft(v, 1);
    assert ShiftLeft(v, 8) == 2 * ShiftLeft(v, 7) == 4 * ShiftLeft(v, 6) == 8 * ShiftLeft(v, 5);
  }

  /** The loop that assembles the public exponent. */
  method ExponentValue(exponent: seq<Byte>) returns (v: nat)
    requires |exponent| <= 4
    ensures v == FromBytes(exponent) && v < 0x1_0000_0000
  {
    v := 0;
    for i := 0 to |exponent|
      invariant v == FromBytes(exponent[..i])
    {
      ShiftByEight(v);
      ShiftByEight(1);
      OrIntoGap(v, 8, exponent[i]);
      assert exponent[..i + 1][..i] == exponent[..i];
      v := BitOr(ShiftLeft(v, 8), exponent[i]);
    }
    assert exponent[..|exponent|] == exponent;
    FromBytesBound(exponent);
    assert Power(4) == 256 * Power(3) == 65536 * Power(2) == 0x1_0000_0000;
  }
}
