/** What base64url decoding computes: the text is a number written in base 64, and the bytes are that number, without
    its unused low bits, written in base 256. */
module Radix {
  import opened Base64Url
  import opened BigEndian

  const UPPER := "ABCDEFGHIJKLMNOPQRSTUVWXYZ"
  const LOWER := "abcdefghijklmnopqrstuvwxyz"
  const REST := "0123456789-_"
  const ALPHABET := UPPER + LOWER + REST

  function Value(v: seq<Sextet>): nat {
    if v == [] then 0 else Value(v[..|v| - 1]) * 64 + v[|v| - 1]
  }

  function Power64(k: nat): nat {
    if k == 0 then 1 else 64 * Power64(k - 1)
  }

  lemma {:induction false} ValueConcat(u: seq<Sextet>, v: seq<Sextet>)
    ensures Value(u + v) == Value(u) * Power64(|v|) + Value(v)
    decreases |v|
  {
    if v == [] {
      assert u + v == u;
    } else {
      var w, x := v[..|v| - 1], v[|v| - 1];
      assert (u + v)[..|u + v| - 1] == u + w;
      ValueConcat(u, w);
      Distribute(Value(u), Power64(|w|), Value(w), 64, x);
    }
  }

  lemma {:induction false} BytesConcat(a: seq<Byte>, b: seq<Byte>)
    ensures FromBytes(a + b) == FromBytes(a) * Power(|b|) + FromBytes(b)
    decreases |b|
  {
    if b == [] {
      assert a + b == a;
    } else {
      var c, x := b[..|b| - 1], b[|b| - 1];
      assert (a + b)[..|a + b| - 1] == a + c;
      BytesConcat(a, c);
      Distribute(FromBytes(a), Power(|c|), FromBytes(c), 256, x);
    }
  }

  lemma Distribute(a: nat, p: nat, b: nat, r: nat, x: nat)
    ensures (a * p + b) * r + x == a * (r * p) + (b * r + x)
  {
  }

  /** The weight of the low bits that an incomplete last group leaves unused. */
  function Unused(n: nat): nat {
    if n % 4 == 2 then 16 else if n % 4 == 3 then 4 else 1
  }

  lemma JoinTwo(a: Sextet, b: Sextet)
    ensures Rewrites([a, b], [ByteX(a, b)])
  {
    FourDigits(a, b, 0, 0);
    assert FromBytes([ByteX(a, b)]) == ByteX(a, b);
    assert Power64(2) == 64 * Power64(1) == 4096 && Power(1) == 256;
  }

  lemma JoinThree(a: Sextet, b: Sextet, c: Sextet)
    ensures Rewrites([a, b, c], [ByteX(a, b), ByteY(b, c)])
  {
    hide ByteX, ByteY;
    FourDigits(a, b, c, 0);
    ThreeDigits(ByteX(a, b), ByteY(b, c), 0);
    LowBits(a, b, c);
    assert Power64(3) == 64 * Power64(2) == 4096 * Power64(1) == 262144;
    assert Power(2) == 256 * Power(1) == 65536;
  }

  lemma LowBits(a: Sextet, b: Sextet, c: Sextet)
    ensures 4096 * a + 64 * b + c - 4 * (256 * ByteX(a, b) + ByteY(b, c)) == c % 4
  {
  }

  lemma JoinShort(v: seq<Sextet>)
    requires |v| < 4 && |v| != 1
    ensures Join(v).Some? && Rewrites(v, Join(v).value)
  {
    if |v| == 0 {
      assert Value(v) == 0 == FromBytes([]);
    } else if |v| == 2 {
      hide Rewrites, ByteX;
      assert v == [v[0], v[1]];
      JoinTwo(v[0], v[1]);
    } else {
      hide Rewrites, ByteX, ByteY;
      assert v == [v[0], v[1], v[2]];
      JoinThree(v[0], v[1], v[2]);
    }
  }

  lemma FourSextets(a: Sextet, b: Sextet, c: Sextet, d: Sextet)
    ensures Value([a, b, c, d]) == FromBytes([ByteX(a, b), ByteY(b, c), ByteZ(c, d)])
  {
    hide Value, FromBytes, ByteX, ByteY, ByteZ;
    FourDigits(a, b, c, d);
    ThreeDigits(ByteX(a, b), ByteY(b, c), ByteZ(c, d));
    SameBits(a, b, c, d);
  }

  lemma FourDigits(a: Sextet, b: Sextet, c: Sextet, d: Sextet)
    ensures Value([a, b, c, d]) == 262144 * a + 4096 * b + 64 * c + d
    ensures Value([a, b, c]) == 4096 * a + 64 * b + c && Value([a, b]) == 64 * a + b
  {
    assert Value([a]) == a;
    assert [a, b][..1] == [a];
    assert Value([a, b]) == 64 * a + b;
    assert [a, b, c][..2] == [a, b];
    assert Value([a, b, c]) == 4096 * a + 64 * b + c;
    assert [a, b, c, d][..3] == [a, b, c];
  }

  lemma ThreeDigits(x: Byte, y: Byte, z: Byte)
    ensures FromBytes([x, y, z]) == 65536 * x + 256 * y + z && FromBytes([x, y]) == 256 * x + y
  {
    assert FromBytes([x]) == x;
    assert [x, y][..1] == [x];
    assert FromBytes([x, y]) == 256 * x + y;
    assert [x, y, z][..2] == [x, y];
  }

  lemma SameBits(a: Sextet, b: Sextet, c: Sextet, d: Sextet)
    ensures 262144 * a + 4096 * b + 64 * c + d == 65536 * ByteX(a, b) + 256 * ByteY(b, c) + ByteZ(c, d)
  {
  }

  /** The bytes are the number of the sextets without the unused low bits. */
  ghost predicate Rewrites(v: seq<Sextet>, b: seq<Byte>) {
    && |b| == 3 * |v| / 4
    && 0 <= Value(v) - Unused(|v|) * FromBytes(b) < Unused(|v|)
    && Power64(|v|) == Unused(|v|) * Power(|b|)
  }

  lemma {:induction false} JoinExactly(v: seq<Sextet>)
    ensures Join(v).Some? <==> |v| % 4 != 1
    ensures Join(v).Some? ==> Rewrites(v, Join(v).value)
  {
    if |v| >= 4 {
      hide Rewrites;
      JoinExactly(v[4..]);
      if Join(v[4..]).Some? { OneGroup(v, Join(v[4..]).value); }
    } else if |v| != 1 {
      JoinShort(v);
    }
  }

  lemma OneGroup(v: seq<Sextet>, rest: seq<Byte>)
    requires |v| >= 4 && Rewrites(v[4..], rest)
    ensures Rewrites(v, [ByteX(v[0], v[1]), ByteY(v[1], v[2]), ByteZ(v[2], v[3])] + rest)
  {
    hide Value, FromBytes, Power, Power64, ByteX, ByteY, ByteZ;
    var head, tail := v[..4], v[4..];
    var three := [ByteX(v[0], v[1]), ByteY(v[1], v[2]), ByteZ(v[2], v[3])];
    assert head == [v[0], v[1], v[2], v[3]] && v == head + tail;
    FourSextets(v[0], v[1], v[2], v[3]);
    ValueConcat(head, tail);
    BytesConcat(three, rest);
    Regroup(Value(head), Power64(|tail|), Unused(|tail|), Power(|rest|), Value(tail), FromBytes(rest));
    PowersConcat(tail, rest);
  }

  lemma Regroup(h: nat, q: nat, k: nat, p: nat, value: nat, bytes: nat)
    requires q == k * p
    ensures h * q + value - k * (h * p + bytes) == value - k * bytes
  {
    assert k * (h * p + bytes) == h * (k * p) + k * bytes;
  }

  lemma PowersConcat(tail: seq<Sextet>, rest: seq<Byte>)
    requires Power64(|tail|) == Unused(|tail|) * Power(|rest|)
    ensures Power64(4 + |tail|) == Unused(4 + |tail|) * Power(3 + |rest|)
  {
    var t, r := |tail|, |rest|;
    assert Power64(t + 4) == 64 * Power64(t + 3) == 4096 * Power64(t + 2) == 262144 * Power64(t + 1);
    assert Power(r + 3) == 256 * Power(r + 2) == 65536 * Power(r + 1);
    assert Unused(t + 4) == Unused(t);
  }

  lemma IndexExactly(c: char)
    ensures IndexOf(c).Some? <==> c in ALPHABET
    ensures IndexOf(c).Some? ==> ALPHABET[IndexOf(c).value] == c
  {
    if IndexOf(c).Some? {
      LetterAt(IndexOf(c).value);
      IndexChar(c);
    }
    if c in ALPHABET {
      var i :| 0 <= i < |ALPHABET| && ALPHABET[i] == c;
      LetterAt(i);
      CharIndex(i);
    }
  }

  lemma LetterAt(i: Sextet)
    ensures |ALPHABET| == 64 && CharOf(i) == ALPHABET[i]
  {
    if i < 26 {
      assert ALPHABET[i] == UPPER[i];
    } else if i < 52 {
      assert ALPHABET[i] == LOWER[i - 26];
    } else {
      assert ALPHABET[i] == REST[i - 52];
    }
  }

  lemma {:induction false} ReadExactly(s: string)
    ensures ReadChars(s).Some? <==> forall c <- s :: c in ALPHABET
    ensures ReadChars(s).Some? ==>
      var v := ReadChars(s).value;
      |v| == |s| && forall i | 0 <= i < |s| :: s[i] == ALPHABET[v[i]]
  {
    if s != "" {
      hide IndexOf;
      IndexExactly(s[0]);
      ReadExactly(s[1..]);
      assert s == [s[0]] + s[1..];
    }
  }

  lemma {:induction false} UnwrappedElements(s: string)
    ensures forall c :: c in Unwrapped(s) <==> c in s && c != '\n' && c != '\r'
  {
    if s != "" {
      UnwrappedElements(s[1..]);
      assert s == [s[0]] + s[1..];
    }
  }

  /** The sextets spell the text. */
  ghost predicate Spells(v: seq<Sextet>, text: string) {
    |v| == |text| && forall i | 0 <= i < |v| :: text[i] == ALPHABET[v[i]]
  }

  /** A text is accepted exactly when it holds only letters of the alphabet and line breaks and does not end in a lone
      letter. The bytes are then the number it spells without the unused low bits, in three bytes for four letters. */
  lemma DecodeExactly(s: string)
    ensures Decode(s).Some? <==>
      (forall c <- s :: c in ALPHABET || c == '\n' || c == '\r') && |Unwrapped(s)| % 4 != 1
    ensures Decode(s).Some? ==>
      exists v :: Spells(v, Unwrapped(s)) && FromBytes(Decode(s).value) == Value(v) / Unused(|v|)
                  && |Decode(s).value| == 3 * |v| / 4
  {
    hide Value, FromBytes, ReadChars, Join;
    var t := Unwrapped(s);
    UnwrappedElements(s);
    ReadExactly(t);
    if ReadChars(t).Some? {
      var v := ReadChars(t).value;
      JoinExactly(v);
      assert Spells(v, t);
      if Join(v).Some? { Quotient(Value(v), Unused(|v|), FromBytes(Join(v).value)); }
    }
  }

  lemma Quotient(value: nat, k: nat, q: nat)
    requires k > 0 && 0 <= value - k * q < k
    ensures value / k == q
  {
    assert value / k * k <= value < (value / k + 1) * k;
    Between(value / k, q, k, value);
  }

  lemma Between(d: int, q: nat, k: nat, value: nat)
    requires k > 0 && d * k <= value < (d + 1) * k && q * k <= value < (q + 1) * k
    ensures d == q
  {
    Scaled(d + 1, q, k);
    Scaled(q + 1, d, k);
  }

  lemma Scaled(a: int, b: int, k: nat)
    ensures a <= b ==> a * k <= b * k
  {
    if a <= b { assert (b - a) * k >= 0; }
  }
}
