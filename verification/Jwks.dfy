/** The public key set: publishing RSA keys as a JSON Web Key Set (RFC 7517) and reading one back. */
module Jwks {
  import opened Base64Url
  import opened BigEndian
  import opened Ordering
  import opened Text

  datatype RsaKey = RsaKey(n: nat, e: int)

  type KeySet = map<string, RsaKey>

  datatype Jwk = Jwk(kty: string, use: string, alg: string, kid: string, modulus: string, exponent: string)

  datatype KeyError =
    | WrongCount
    | Unsupported
    | InvalidModulus(kid: string)
    | InvalidExponent(kid: string)
    | WeakKey(kid: string)
    | DuplicateId(kid: string)

  datatype Result<T> = Ok(value: T) | Err(error: KeyError)

  const ALGORITHM := "RS256"
  const MAX_KEYS := 100
  const MIN_BITS := 2048

  function BitLen(n: nat): nat {
    if n == 0 then 0 else 1 + BitLen(n / 2)
  }

  // ---- reading one entry ----------------------------------------------------------

  predicate SignsRs256(j: Jwk) {
    j.kty == "RSA" && j.alg == ALGORITHM && j.use == "sig" && !Blank(j.kid)
  }

  predicate Strong(key: RsaKey) {
    BitLen(key.n) >= MIN_BITS && key.e >= 3 && key.e % 2 != 0
  }

  function Parse(j: Jwk): Result<RsaKey> {
    if !SignsRs256(j) then Err(Unsupported)
    else if Decode(j.modulus).None? then Err(InvalidModulus(j.kid))
    else if Decode(j.exponent).None? || !(1 <= |Decode(j.exponent).value| <= 4) then Err(InvalidExponent(j.kid))
    else
      var key := RsaKey(FromBytes(Decode(j.modulus).value), FromBytes(Decode(j.exponent).value));
      if Strong(key) then Ok(key) else Err(WeakKey(j.kid))
  }

  function ParseAll(doc: seq<Jwk>): Result<KeySet> {
    if doc == [] then Ok(map[])
    else
      var last := doc[|doc| - 1];
      match ParseAll(doc[..|doc| - 1])
      case Err(e) => Err(e)
      case Ok(keys) =>
        match Parse(last)
        case Err(e) => Err(e)
        case Ok(key) => if last.kid in keys then Err(DuplicateId(last.kid)) else Ok(keys[last.kid := key])
  }

  function KeysOf(doc: seq<Jwk>): Result<KeySet> {
    if doc == [] || |doc| > MAX_KEYS then Err(WrongCount) else ParseAll(doc)
  }

  /** Reads a document entry by entry and stops at the first entry it refuses. */
  method ReadDocument(doc: seq<Jwk>) returns (r: Result<KeySet>)
    ensures r == KeysOf(doc)
    ensures r.Ok? <==> AcceptableSet(doc)
    ensures r.Ok? ==> r.value.Keys == Identifiers(doc) && forall j <- doc :: Acceptable(j) && r.value[j.kid] == Spelled(j)
  {
    hide AcceptableSet, Acceptable;
    ReadExactly(doc);
    if |doc| == 0 || |doc| > MAX_KEYS { return Err(WrongCount); }
    var keys: KeySet := map[];
    for i := 0 to |doc|
      invariant ParseAll(doc[..i]) == Ok(keys)
    {
      var j := doc[i];
      assert doc[..i + 1][..i] == doc[..i];
      if j.kty != "RSA" || j.alg != ALGORITHM || j.use != "sig" || Blank(j.kid) {
        FirstError(doc, i + 1);
        return Err(Unsupported);
      }
      var modulus, exponent := Decode(j.modulus), Decode(j.exponent);
      if modulus.None? {
        FirstError(doc, i + 1);
        return Err(InvalidModulus(j.kid));
      }
      if exponent.None? || |exponent.value| == 0 || |exponent.value| > 4 {
        FirstError(doc, i + 1);
        return Err(InvalidExponent(j.kid));
      }
      var e := ExponentValue(exponent.value);
      var key := RsaKey(FromBytes(modulus.value), e);
      if BitLen(key.n) < MIN_BITS || key.e < 3 || key.e % 2 == 0 {
        FirstError(doc, i + 1);
        return Err(WeakKey(j.kid));
      }
      if j.kid in keys {
        FirstError(doc, i + 1);
        return Err(DuplicateId(j.kid));
      }
      keys := keys[j.kid := key];
    }
    assert doc[..|doc|] == doc;
    return Ok(keys);
  }

  /** The error of a prefix is the error of the whole document. */
  lemma {:induction false} FirstError(doc: seq<Jwk>, i: nat)
    requires i <= |doc| && ParseAll(doc[..i]).Err?
    ensures ParseAll(doc) == ParseAll(doc[..i])
    decreases |doc|
  {
    if i == |doc| {
      assert doc[..i] == doc;
    } else {
      var prefix := doc[..|doc| - 1];
      assert prefix[..i] == doc[..i];
      FirstError(prefix, i);
    }
  }

  // ---- what a document means, without the loop --------------------------------------

  ghost predicate Distinct(doc: seq<Jwk>) {
    forall i, j | 0 <= i < j < |doc| :: doc[i].kid != doc[j].kid
  }

  ghost predicate Readable(doc: seq<Jwk>) {
    Distinct(doc) && forall j <- doc :: Parse(j).Ok?
  }

  /** Every entry is in the key set under its identifier, and nothing else is. */
  ghost predicate Holds(keys: KeySet, doc: seq<Jwk>) {
    && (forall j <- doc :: j.kid in keys && Parse(j) == Ok(keys[j.kid]))
    && (forall id <- keys :: exists j <- doc :: j.kid == id)
    && |keys| == |doc|
  }

  lemma {:induction false} ParseAllExactly(doc: seq<Jwk>)
    ensures ParseAll(doc).Ok? <==> Readable(doc)
    ensures ParseAll(doc).Ok? ==> Holds(ParseAll(doc).value, doc)
  {
    if doc != [] {
      hide Parse;
      var prefix, last := doc[..|doc| - 1], doc[|doc| - 1];
      assert doc == prefix + [last];
      ParseAllExactly(prefix);
      assert Readable(doc) ==> Readable(prefix) by {
        assert forall i | 0 <= i < |prefix| :: prefix[i] == doc[i] && prefix[i] in doc;
      }
      if ParseAll(prefix).Ok? {
        ReadableLast(prefix, last, ParseAll(prefix).value);
        if ParseAll(doc).Ok? { HoldsLast(prefix, last, ParseAll(prefix).value); }
      }
    }
  }

  lemma ReadableLast(prefix: seq<Jwk>, last: Jwk, keys: KeySet)
    requires Readable(prefix) && Holds(keys, prefix)
    ensures Readable(prefix + [last]) <==> Parse(last).Ok? && last.kid !in keys
  {
    hide Parse;
    var doc := prefix + [last];
    assert doc[|prefix|] == last && forall i | 0 <= i < |prefix| :: doc[i] == prefix[i];
    assert forall i | 0 <= i < |prefix| :: prefix[i] in prefix;
    if last.kid in keys {
      var j :| j in prefix && j.kid == last.kid;
      var i :| 0 <= i < |prefix| && prefix[i] == j;
      assert doc[i].kid == doc[|prefix|].kid;
    }
  }

  lemma HoldsLast(prefix: seq<Jwk>, last: Jwk, keys: KeySet)
    requires Holds(keys, prefix) && Parse(last).Ok? && last.kid !in keys
    ensures Holds(keys[last.kid := Parse(last).value], prefix + [last])
  {
    hide Parse;
    var doc, more := prefix + [last], keys[last.kid := Parse(last).value];
    forall id | id in more ensures exists j <- doc :: j.kid == id {
      if id == last.kid {
        assert last in doc;
      } else {
        var j :| j in prefix && j.kid == id;
        assert j in doc;
      }
    }
  }

  /** What an entry must be: an RSA signing key for RS256 with an identifier, a modulus of at least 2048 bits, and an odd
      exponent of one to four bytes that is at least three. */
  predicate Acceptable(j: Jwk) {
    && j.kty == "RSA" && j.alg == "RS256" && j.use == "sig" && (exists c <- j.kid :: !IsSpace(c))
    && Decode(j.modulus).Some? && Decode(j.exponent).Some? && 1 <= |Decode(j.exponent).value| <= 4
    && FromBytes(Decode(j.modulus).value) >= 128 * Power(255)
    && FromBytes(Decode(j.exponent).value) >= 3 && FromBytes(Decode(j.exponent).value) % 2 == 1
  }

  /** The two numbers an acceptable entry spells, most significant byte first. */
  function Spelled(j: Jwk): RsaKey
    requires Decode(j.modulus).Some? && Decode(j.exponent).Some?
  {
    RsaKey(FromBytes(Decode(j.modulus).value), FromBytes(Decode(j.exponent).value))
  }

  lemma ParseExactly(j: Jwk)
    ensures Parse(j).Ok? <==> Acceptable(j)
    ensures Parse(j).Ok? ==> Parse(j).value == Spelled(j)
    ensures Parse(j).Err? ==> Parse(j).error == Unsupported || Parse(j).error.kid == j.kid
  {
    hide Decode, BitLen, Power, IsSpace;
    if Decode(j.modulus).Some? {
      BitLenExactly(FromBytes(Decode(j.modulus).value), 2047);
      EighthPower(255);
    }
  }

  function TwoTo(k: nat): (r: nat)
    ensures r >= 1
  {
    if k == 0 then 1 else 2 * TwoTo(k - 1)
  }

  lemma {:induction false} BitLenExactly(n: nat, k: nat)
    ensures BitLen(n) > k <==> n >= TwoTo(k)
  {
    if n > 0 && k > 0 {
      BitLenExactly(n / 2, k - 1);
    }
  }

  lemma {:induction false} EighthPower(k: nat)
    ensures TwoTo(8 * k + 7) == 128 * Power(k)
  {
    var p := TwoTo(8 * k);
    assert TwoTo(8 * k + 4) == 2 * TwoTo(8 * k + 3) == 4 * TwoTo(8 * k + 2) == 8 * TwoTo(8 * k + 1) == 16 * p;
    assert TwoTo(8 * k + 7) == 2 * TwoTo(8 * k + 6) == 4 * TwoTo(8 * k + 5) == 8 * TwoTo(8 * k + 4) == 128 * p;
    if k > 0 { EighthPower(k - 1); }
  }

  /** One to a hundred acceptable entries under distinct identifiers. */
  ghost predicate AcceptableSet(doc: seq<Jwk>) {
    && 1 <= |doc| <= 100 && (forall i, j | 0 <= i < j < |doc| :: doc[i].kid != doc[j].kid)
    && forall j <- doc :: Acceptable(j)
  }

  function Identifiers(doc: seq<Jwk>): set<string> { set j | j in doc :: j.kid }

  /** The keys read are the ones the entries spell, under their identifiers, and no others. */
  lemma ReadExactly(doc: seq<Jwk>)
    ensures KeysOf(doc).Ok? <==> AcceptableSet(doc)
    ensures KeysOf(doc).Ok? ==>
      && KeysOf(doc).value.Keys == Identifiers(doc)
      && forall j <- doc :: Acceptable(j) && KeysOf(doc).value[j.kid] == Spelled(j)
  {
    hide Parse, ParseAll, Acceptable, Spelled;
    ParseAllExactly(doc);
    forall j | j in doc
      ensures Parse(j).Ok? <==> Acceptable(j)
      ensures Acceptable(j) ==> Decode(j.modulus).Some? && Decode(j.exponent).Some? && Parse(j).value == Spelled(j)
    {
      ParseExactly(j);
      AcceptableDecodes(j);
    }
  }

  lemma AcceptableDecodes(j: Jwk)
    ensures Acceptable(j) ==> Decode(j.modulus).Some? && Decode(j.exponent).Some?
  {
  }

  // ---- publishing -------------------------------------------------------------------

  function Magnitude(e: int): nat { if e < 0 then -e else e }

  function JwkOf(id: string, key: RsaKey): Jwk {
    Jwk("RSA", "sig", ALGORITHM, id, Encode(Bytes(key.n)), Encode(Bytes(Magnitude(key.e))))
  }

  ghost predicate Publishes(keys: KeySet, doc: seq<Jwk>) {
    && |doc| == |keys|
    && (forall i, j | 0 <= i < j < |doc| :: Less(doc[i].kid, doc[j].kid))
    && (forall j <- doc :: j.kid in keys && j == JwkOf(j.kid, keys[j.kid]))
    && (forall id <- keys :: exists j <- doc :: j.kid == id)
  }

  /** Publishes the keys in the order of their identifiers. */
  method Document(keys: KeySet) returns (doc: seq<Jwk>)
    ensures Publishes(keys, doc)
  {
    hide Less, JwkOf;
    var ids := SortedKeys(keys.Keys);
    doc := [];
    for i := 0 to |ids|
      invariant |doc| == i
      invariant forall k | 0 <= k < i :: ids[k] in keys && doc[k] == JwkOf(ids[k], keys[ids[k]]) && doc[k].kid == ids[k]
    {
      assert ids[i] in Elements(ids);
      doc := doc + [JwkOf(ids[i], keys[ids[i]])];
      KidOf(ids[i], keys[ids[i]]);
    }
    SortedSize(ids);
    forall id | id in keys ensures exists j <- doc :: j.kid == id {
      assert id in Elements(ids);
      var k :| 0 <= k < |ids| && ids[k] == id;
      assert doc[k] in doc;
    }
  }

  lemma KidOf(id: string, key: RsaKey)
    ensures JwkOf(id, key).kid == id
  {
  }

  lemma {:induction false} SortedSize(s: seq<string>)
    requires StrictlySorted(s)
    ensures |Elements(s)| == |s|
  {
    if s != [] {
      TailElements(s);
      SortedSize(s[1..]);
      assert s[0] in Elements(s);
    }
  }

  /** What survives publication: a usable identifier and a strong key whose exponent fits four bytes. */
  predicate Publishable(id: string, key: RsaKey) {
    !Blank(id) && Strong(key) && key.e < 0x1_0000_0000
  }

  lemma EntryRoundTrip(id: string, key: RsaKey)
    ensures Parse(JwkOf(id, key)) == Ok(key) <==> Publishable(id, key)
  {
    hide Decode, Encode, BitLen, Blank;
    DecodeEncode(Bytes(key.n));
    FromBytesBytes(key.n);
    var m := Magnitude(key.e);
    DecodeEncode(Bytes(m));
    FromBytesBytes(m);
    BytesLength(m, 4);
    BytesLength(m, 0);
    PowerFour();
  }

  /** An entry that is accepted can be published again. */
  lemma AcceptedPublishable(j: Jwk)
    requires Parse(j).Ok?
    ensures Publishable(j.kid, Parse(j).value)
  {
    hide Decode, BitLen, Blank;
    var b := Decode(j.exponent).value;
    FromBytesBound(b);
    PowerFour();
    PowerGrows(|b|, 4);
  }

  lemma PowerFour()
    ensures Power(4) == 0x1_0000_0000 && Power(0) == 1
  {
    assert Power(4) == 256 * Power(3) == 65536 * Power(2);
  }

  lemma {:induction false} PowerGrows(a: nat, b: nat)
    requires a <= b
    ensures Power(a) <= Power(b)
    decreases b
  {
    if a < b { PowerGrows(a, b - 1); }
  }

  ghost predicate AllPublishable(keys: KeySet) {
    1 <= |keys| <= MAX_KEYS && forall id <- keys :: Publishable(id, keys[id])
  }

  /** Reading back what was published gives the same key set, exactly when every key is publishable
      and there are between one and a hundred of them. */
  lemma DocumentRoundTrip(keys: KeySet, doc: seq<Jwk>)
    requires Publishes(keys, doc)
    ensures KeysOf(doc) == Ok(keys) <==> AllPublishable(keys)
  {
    hide Parse, JwkOf, Publishable, Less, ParseAll;
    ParseAllExactly(doc);
    forall id | id in keys
      ensures JwkOf(id, keys[id]) in doc
      ensures Parse(JwkOf(id, keys[id])) == Ok(keys[id]) <==> Publishable(id, keys[id])
    {
      EntryRoundTrip(id, keys[id]);
      var j :| j in doc && j.kid == id;
    }
    if AllPublishable(keys) {
      PublishedDistinct(keys, doc);
      SameKeys(keys, ParseAll(doc).value, doc);
    }
  }

  lemma PublishedDistinct(keys: KeySet, doc: seq<Jwk>)
    requires Publishes(keys, doc)
    ensures Distinct(doc)
  {
    hide Less, JwkOf;
    forall i, j | 0 <= i < j < |doc| ensures doc[i].kid != doc[j].kid {
      LessIrreflexive(doc[i].kid);
    }
  }

  lemma SameKeys(keys: KeySet, read: KeySet, doc: seq<Jwk>)
    requires Publishes(keys, doc) && Holds(read, doc)
    requires forall j <- doc :: Parse(j) == Ok(keys[j.kid])
    ensures read == keys
  {
    hide Parse, Less, JwkOf;
    assert read.Keys == keys.Keys;
  }

  /** Whatever is read is publishable. */
  lemma ReadPublishable(doc: seq<Jwk>)
    requires KeysOf(doc).Ok?
    ensures AllPublishable(KeysOf(doc).value)
  {
    hide Parse, Publishable, ParseAll;
    ParseAllExactly(doc);
    var keys := KeysOf(doc).value;
    forall id | id in keys ensures Publishable(id, keys[id]) {
      var j :| j in doc && j.kid == id;
      AcceptedPublishable(j);
    }
  }

  /** A key set read from any document survives being published and read again. */
  lemma Republishing(doc: seq<Jwk>, again: seq<Jwk>)
    requires KeysOf(doc).Ok? && Publishes(KeysOf(doc).value, again)
    ensures KeysOf(again) == KeysOf(doc)
  {
    ReadPublishable(doc);
    DocumentRoundTrip(KeysOf(doc).value, again);
  }

  /** Two runs over the same keys publish the same document, whatever order the map is walked in. */
  lemma PublishedOnce(keys: KeySet, doc: seq<Jwk>, doc': seq<Jwk>)
    requires Publishes(keys, doc) && Publishes(keys, doc')
    ensures doc == doc'
  {
    hide Less, JwkOf;
    var ids, ids' := Kids(doc), Kids(doc');
    KidElements(keys, doc);
    KidElements(keys, doc');
    SortedUnique(ids, ids');
    forall i | 0 <= i < |doc| ensures doc[i] == doc'[i] {
      assert ids[i] == ids'[i] && doc[i] in doc && doc'[i] in doc';
    }
  }

  function Kids(doc: seq<Jwk>): seq<string> {
    seq(|doc|, i requires 0 <= i < |doc| => doc[i].kid)
  }

  lemma KidElements(keys: KeySet, doc: seq<Jwk>)
    requires Publishes(keys, doc)
    ensures StrictlySorted(Kids(doc)) && Elements(Kids(doc)) == keys.Keys
  {
    hide Less, JwkOf;
    forall id | id in keys ensures id in Elements(Kids(doc)) {
      var j :| j in doc && j.kid == id;
      var i :| 0 <= i < |doc| && doc[i] == j;
      assert Kids(doc)[i] == id;
    }
    forall id | id in Elements(Kids(doc)) ensures id in keys {
      var i :| 0 <= i < |Kids(doc)| && Kids(doc)[i] == id;
      assert doc[i] in doc;
    }
  }
}
