/** Unpadded base64url, sections 3.2 and 5 of RFC 4648, as the Go decoder reads it: line breaks are
    skipped and the unused low bits of the last character are ignored. */
module Base64Url {
  import opened Tables

  type Byte = n: nat | n < 256
  type Sextet = n: nat | n < 64

  function CharOf(i: Sextet): char {
    if i < 26 then 'A' + i as char
    else if i < 52 then 'a' + (i - 26) as char
    else if i < 62 then '0' + (i - 52) as char
    else if i == 62 then '-' else '_'
  }

  function IndexOf(c: char): Option<Sextet> {
    if 'A' <= c <= 'Z' then Some((c - 'A') as int)
    else if 'a' <= c <= 'z' then Some((c - 'a') as int + 26)
    else if '0' <= c <= '9' then Some((c - '0') as int + 52)
    else if c == '-' then Some(62)
    else if c == '_' then Some(63)
    else None
  }

  lemma CharIndex(i: Sextet)
    ensures IndexOf(CharOf(i)) == Some(i) && CharOf(i) != '\n' && CharOf(i) != '\r'
  {
  }

  lemma IndexChar(c: char)
    requires IndexOf(c).Some?
    ensures CharOf(IndexOf(c).value) == c
  {
  }

  // ---- bytes and sextets ----------------------------------------------------

  // Three bytes x, y, z and four sextets a, b, c, d are the same 24 bits.

  function SextetA(x: Byte): Sextet { x / 4 }

  function SextetB(x: Byte, y: Byte): Sextet { x % 4 * 16 + y / 16 }

  function SextetC(y: Byte, z: Byte): Sextet { y % 16 * 4 + z / 64 }

  function SextetD(z: Byte): Sextet { z % 64 }

  function ByteX(a: Sextet, b: Sextet): Byte { a * 4 + b / 16 }

  function ByteY(b: Sextet, c: Sextet): Byte { b % 16 * 16 + c / 4 }

  function ByteZ(c: Sextet, d: Sextet): Byte { c % 4 * 64 + d }

  /** A group that is not complete is filled with zero bits. */
  function Split(b: seq<Byte>): seq<Sextet> {
    if |b| == 0 then []
    else if |b| == 1 then [SextetA(b[0]), SextetB(b[0], 0)]
    else if |b| == 2 then [SextetA(b[0]), SextetB(b[0], b[1]), SextetC(b[1], 0)]
    else [SextetA(b[0]), SextetB(b[0], b[1]), SextetC(b[1], b[2]), SextetD(b[2])] + Split(b[3..])
  }

  function Join(v: seq<Sextet>): Option<seq<Byte>> {
    if |v| == 0 then Some([])
    else if |v| == 1 then None
    else if |v| == 2 then Some([ByteX(v[0], v[1])])
    else if |v| == 3 then Some([ByteX(v[0], v[1]), ByteY(v[1], v[2])])
    else
      match Join(v[4..])
      case None => None
      case Some(rest) => Some([ByteX(v[0], v[1]), ByteY(v[1], v[2]), ByteZ(v[2], v[3])] + rest)
  }

  lemma BytesBack(x: Byte, y: Byte, z: Byte)
    ensures ByteX(SextetA(x), SextetB(x, y)) == x
    ensures ByteY(SextetB(x, y), SextetC(y, z)) == y
    ensures ByteZ(SextetC(y, z), SextetD(z)) == z
  {
  }

  lemma SextetsBack(a: Sextet, b: Sextet, c: Sextet, d: Sextet)
    ensures SextetA(ByteX(a, b)) == a
    ensures SextetB(ByteX(a, b), ByteY(b, c)) == b
    ensures SextetC(ByteY(b, c), ByteZ(c, d)) == c
    ensures SextetD(ByteZ(c, d)) == d
  {
    MiddleSextet(a, b, c);
    assert ByteY(b, c) % 16 == c / 4 && ByteZ(c, d) / 64 == c % 4;
  }

  lemma MiddleSextet(a: Sextet, b: Sextet, c: Sextet)
    ensures SextetA(ByteX(a, b)) == a && SextetB(ByteX(a, b), ByteY(b, c)) == b
  {
    assert ByteX(a, b) % 4 == b / 16 && ByteY(b, c) / 16 == b % 16;
  }

  /** The filling bits of the last sextet are lost, so it comes back only if they were zero. */
  lemma LastSextet(a: Sextet, b: Sextet, c: Sextet)
    ensures SextetB(ByteX(a, b), 0) == b <==> b % 16 == 0
    ensures SextetC(ByteY(b, c), 0) == c <==> c % 4 == 0
  {
    assert ByteX(a, b) % 4 == b / 16 && ByteY(b, c) % 16 == c / 4;
  }

  lemma {:induction false} JoinSplit(b: seq<Byte>)
    ensures Join(Split(b)) == Some(b)
  {
    hide SextetA, SextetB, SextetC, SextetD, ByteX, ByteY, ByteZ;
    if |b| >= 3 {
      BytesBack(b[0], b[1], b[2]);
      JoinSplit(b[3..]);
      assert Split(b)[4..] == Split(b[3..]);
      assert b == [b[0], b[1], b[2]] + b[3..];
    } else if |b| == 2 {
      BytesBack(b[0], b[1], 0);
      assert b == [b[0], b[1]];
    } else if |b| == 1 {
      BytesBack(b[0], 0, 0);
      assert b == [b[0]];
    }
  }

  /** The bits of the last sextet that carry no data are zero. */
  predicate Tidy(v: seq<Sextet>) {
    && (|v| % 4 == 2 ==> v[|v| - 1] % 16 == 0)
    && (|v| % 4 == 3 ==> v[|v| - 1] % 4 == 0)
  }

  lemma SplitJoinTwo(a: Sextet, b: Sextet)
    ensures Split([ByteX(a, b)]) == [a, b] <==> Tidy([a, b])
  {
    hide SextetA, SextetB, SextetC, ByteX, ByteY;
    MiddleSextet(a, b, 0);
    LastSextet(a, b, 0);
    assert Split([ByteX(a, b)]) == [a, SextetB(ByteX(a, b), 0)];
  }

  lemma SplitJoinThree(a: Sextet, b: Sextet, c: Sextet)
    ensures Split([ByteX(a, b), ByteY(b, c)]) == [a, b, c] <==> Tidy([a, b, c])
  {
    hide SextetA, SextetB, SextetC, ByteX, ByteY;
    MiddleSextet(a, b, c);
    LastSextet(a, b, c);
    assert Split([ByteX(a, b), ByteY(b, c)]) == [a, b, SextetC(ByteY(b, c), 0)];
  }

  lemma SplitJoinShort(v: seq<Sextet>)
    requires |v| == 2 || |v| == 3
    ensures Split(Join(v).value) == v <==> Tidy(v)
  {
    hide Split, Tidy, ByteX, ByteY;
    if |v| == 2 {
      assert v == [v[0], v[1]];
      SplitJoinTwo(v[0], v[1]);
    } else {
      assert v == [v[0], v[1], v[2]];
      SplitJoinThree(v[0], v[1], v[2]);
    }
  }

  lemma SplitJoinStep(v: seq<Sextet>)
    requires |v| >= 4 && Join(v).Some?
    ensures Split(Join(v).value) == v[..4] + Split(Join(v[4..]).value)
  {
    hide SextetA, SextetB, SextetC, SextetD, ByteX, ByteY, ByteZ;
    SextetsBack(v[0], v[1], v[2], v[3]);
    assert Join(v).value[3..] == Join(v[4..]).value;
    assert v[..4] == [v[0], v[1], v[2], v[3]];
  }

  /** Prefixing four sextets keeps the comparison. */
  lemma SameAfterFour(v: seq<Sextet>, split: seq<Sextet>, rest: seq<Sextet>)
    requires |v| >= 4 && split == v[..4] + rest
    ensures split == v <==> rest == v[4..]
  {
    assert split[4..] == rest && v == v[..4] + v[4..];
  }

  lemma TidyAfterFour(v: seq<Sextet>)
    requires |v| >= 4
    ensures Tidy(v) <==> Tidy(v[4..])
  {
  }

  lemma {:induction false} SplitJoin(v: seq<Sextet>)
    requires Join(v).Some?
    ensures Split(Join(v).value) == v <==> Tidy(v)
  {
    if |v| >= 4 {
      JoinTail(v);
      hide Join, Split, Tidy;
      SplitJoin(v[4..]);
      SplitJoinStep(v);
      TidyAfterFour(v);
      SameAfterFour(v, Split(Join(v).value), Split(Join(v[4..]).value));
    } else if |v| >= 2 {
      SplitJoinShort(v);
    }
  }

  lemma JoinTail(v: seq<Sextet>)
    requires |v| >= 4 && Join(v).Some?
    ensures Join(v[4..]).Some?
  {
  }

  // ---- text -----------------------------------------------------------------

  function Write(v: seq<Sextet>): string {
    seq(|v|, i requires 0 <= i < |v| => CharOf(v[i]))
  }

  function Unwrapped(s: string): string {
    if s == "" then ""
    else if s[0] == '\n' || s[0] == '\r' then Unwrapped(s[1..])
    else [s[0]] + Unwrapped(s[1..])
  }

  function ReadChars(s: string): Option<seq<Sextet>> {
    if s == "" then Some([])
    else
      match (IndexOf(s[0]), ReadChars(s[1..]))
      case (Some(i), Some(rest)) => Some([i] + rest)
      case _ => None
  }

  function Encode(b: seq<Byte>): string { Write(Split(b)) }

  function Decode(s: string): Option<seq<Byte>> {
    match ReadChars(Unwrapped(s))
    case None => None
    case Some(v) => Join(v)
  }

  predicate OneLine(s: string) {
    '\n' !in s && '\r' !in s
  }

  lemma {:induction false} UnwrapOneLine(s: string)
    ensures Unwrapped(s) == s <==> OneLine(s)
    ensures |Unwrapped(s)| <= |s|
  {
    if s != "" {
      UnwrapOneLine(s[1..]);
      assert s == [s[0]] + s[1..];
    }
  }

  lemma {:induction false} ReadWrite(v: seq<Sextet>)
    ensures ReadChars(Write(v)) == Some(v) && OneLine(Write(v))
  {
    forall i | 0 <= i < |v| ensures Write(v)[i] != '\n' && Write(v)[i] != '\r' { CharIndex(v[i]); }
    if v != [] {
      CharIndex(v[0]);
      assert Write(v)[1..] == Write(v[1..]);
      ReadWrite(v[1..]);
      assert v == [v[0]] + v[1..];
    }
  }

  lemma {:induction false} WriteRead(s: string)
    requires ReadChars(s).Some?
    ensures Write(ReadChars(s).value) == s
  {
    if s != "" {
      WriteRead(s[1..]);
      IndexChar(s[0]);
      var v := ReadChars(s).value;
      assert Write(v)[1..] == Write(v[1..]) && v[1..] == ReadChars(s[1..]).value;
      assert s == [s[0]] + s[1..];
    }
  }

  /** Every byte string comes back. */
  lemma DecodeEncode(b: seq<Byte>)
    ensures Decode(Encode(b)) == Some(b)
  {
    ReadWrite(Split(b));
    UnwrapOneLine(Encode(b));
    JoinSplit(b);
  }

  /** A text the decoder accepts is the encoding of what it decodes to exactly when it has no line
      break and its unused bits are zero. */
  lemma EncodeDecode(s: string)
    requires Decode(s).Some?
    ensures Encode(Decode(s).value) == s <==> OneLine(s) && Tidy(ReadChars(Unwrapped(s)).value)
  {
    var t := Unwrapped(s);
    var v := ReadChars(t).value;
    WriteRead(t);
    SplitJoin(v);
    UnwrapOneLine(s);
    ReadWrite(Split(Join(v).value));
    if Encode(Join(v).value) == s {
      assert OneLine(s);
      assert t == s;
    }
  }
}
