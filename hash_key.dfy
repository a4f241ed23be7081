/**
 * Cache-key derivation of helpers/hash_key.go. The unhashed key is
 * `name:request:softSeconds:hardSeconds:version`; the key is the SHA-512
 * digest of that text, written in the padded URL-safe base64 alphabet of
 * section 5 of RFC 4648. The digest itself is a parameter: only its length
 * (64 bytes, FIPS 180-4) is known to the model.
 */
module HashKey {
  import opened Common
  import opened Decimal

  /** A SHA-512 digest. */
  type Digest = d: Bytes | |d| == 64 witness seq(64, _ => 0)

  // ---------------------------------------------------------------------
  // Base64 with the URL and filename safe alphabet (RFC 4648, section 5)

  const PadChar: char := '='

  /** The character of the 6-bit value `i` in the URL-safe alphabet. */
  function Symbol(i: int): (c: char)
    requires 0 <= i < 64
    ensures c != PadChar && c != '/' && c != '+'
  {
    if i < 26 then (('A' as int) + i) as char
    else if i < 52 then (('a' as int) + i - 26) as char
    else if i < 62 then (('0' as int) + i - 52) as char
    else if i == 62 then '-'
    else '_'
  }

  predicate IsSymbol(c: char)
  {
    'A' <= c <= 'Z' || 'a' <= c <= 'z' || '0' <= c <= '9' || c == '-' || c == '_'
  }

  /** The 6-bit value of a character of the URL-safe alphabet. */
  function SymbolValue(c: char): (i: int)
    requires IsSymbol(c)
    ensures 0 <= i < 64
  {
    if 'A' <= c <= 'Z' then c as int - 'A' as int
    else if 'a' <= c <= 'z' then c as int - 'a' as int + 26
    else if '0' <= c <= '9' then c as int - '0' as int + 52
    else if c == '-' then 62
    else 63
  }

  lemma SymbolRoundTrip(i: int)
    requires 0 <= i < 64
    ensures IsSymbol(Symbol(i)) && SymbolValue(Symbol(i)) == i
  {
  }

  /** One group of up to three bytes as four characters, padded when short. */
  function EncodeQuantum(q: Bytes): (s: string)
    requires 1 <= |q| <= 3
    ensures |s| == 4
  {
    var x0 := q[0] as int;
    var x1 := if |q| > 1 then q[1] as int else 0;
    var x2 := if |q| > 2 then q[2] as int else 0;
    [Symbol(x0 / 4), Symbol((x0 % 4) * 16 + x1 / 16)]
      + (if |q| > 1 then [Symbol((x1 % 16) * 4 + x2 / 64)] else [PadChar])
      + (if |q| > 2 then [Symbol(x2 % 64)] else [PadChar])
  }

  /** `base64.URLEncoding.EncodeToString`: each 3 bytes become 4 symbols, a short tail is padded. */
  function Base64Url(b: Bytes): (s: string)
    ensures |s| % 4 == 0
    ensures |s| == 0 <==> |b| == 0
    decreases |b|
  {
    if |b| == 0 then ""
    else if |b| <= 3 then EncodeQuantum(b)
    else EncodeQuantum(b[..3]) + Base64Url(b[3..])
  }

  /**
   * Four characters back to the bytes they encode; padding is accepted only
   * in the final group (`last`).
   */
  function DecodeQuantum(c0: char, c1: char, c2: char, c3: char, last: bool): Option<Bytes>
  {
    if !IsSymbol(c0) || !IsSymbol(c1) then None
    else
      var v0, v1 := SymbolValue(c0), SymbolValue(c1);
      var y0 := (v0 * 4 + v1 / 16) as uint8;
      if last && c2 == PadChar && c3 == PadChar then Some([y0])
      else if !IsSymbol(c2) then None
      else
        var v2 := SymbolValue(c2);
        var y1 := ((v1 % 16) * 16 + v2 / 4) as uint8;
        if last && c3 == PadChar then Some([y0, y1])
        else if !IsSymbol(c3) then None
        else Some([y0, y1, ((v2 % 4) * 64 + SymbolValue(c3)) as uint8])
  }

  /** The decoder that undoes `Base64Url`; `None` for text it did not produce. */
  function Base64UrlDecode(s: string): Option<Bytes>
    decreases |s|
  {
    if |s| == 0 then Some([])
    else if |s| < 4 then None
    else
      match DecodeQuantum(s[0], s[1], s[2], s[3], |s| == 4)
      case None => None
      case Some(q) =>
        if |s| == 4 then Some(q)
        else if |q| < 3 then None
        else
          match Base64UrlDecode(s[4..])
          case None => None
          case Some(rest) => Some(q + rest)
  }

  /** Splitting three bytes into four 6-bit groups and joining them back is lossless. */
  lemma QuantumArithmetic(x0: int, x1: int, x2: int)
    requires 0 <= x0 < 256 && 0 <= x1 < 256 && 0 <= x2 < 256
    ensures (x0 / 4) * 4 + ((x0 % 4) * 16 + x1 / 16) / 16 == x0
    ensures (((x0 % 4) * 16 + x1 / 16) % 16) * 16 + ((x1 % 16) * 4 + x2 / 64) / 4 == x1
    ensures (((x1 % 16) * 4 + x2 / 64) % 4) * 64 + x2 % 64 == x2
  {
    assert ((x0 % 4) * 16 + x1 / 16) / 16 == x0 % 4;
    assert ((x0 % 4) * 16 + x1 / 16) % 16 == x1 / 16;
    assert ((x1 % 16) * 4 + x2 / 64) / 4 == x1 % 16;
    assert ((x1 % 16) * 4 + x2 / 64) % 4 == x2 / 64;
  }

  /** A group decodes to the bytes it encodes; a full group decodes whether or not it is the last. */
  lemma QuantumRoundTrip(q: Bytes, last: bool)
    requires 1 <= |q| <= 3
    requires |q| < 3 ==> last
    ensures var s := EncodeQuantum(q); DecodeQuantum(s[0], s[1], s[2], s[3], last) == Some(q)
  {
    var x0 := q[0] as int;
    var x1 := if |q| > 1 then q[1] as int else 0;
    var x2 := if |q| > 2 then q[2] as int else 0;
    QuantumArithmetic(x0, x1, x2);
    SymbolRoundTrip(x0 / 4);
    SymbolRoundTrip((x0 % 4) * 16 + x1 / 16);
    SymbolRoundTrip((x1 % 16) * 4 + x2 / 64);
    SymbolRoundTrip(x2 % 64);
    if |q| == 1 {
      assert q == [q[0]];
    } else if |q| == 2 {
      assert q == [q[0], q[1]];
    } else {
      assert q == [q[0], q[1], q[2]];
    }
  }

  /** Decoding an encoding gives the bytes back. */
  lemma {:induction false} Base64UrlRoundTrip(b: Bytes)
    ensures Base64UrlDecode(Base64Url(b)) == Some(b)
    decreases |b|
  {
    if 1 <= |b| <= 3 {
      QuantumRoundTrip(b, true);
    } else if |b| > 3 {
      var s := Base64Url(b);
      var rest := Base64Url(b[3..]);
      QuantumRoundTrip(b[..3], |s| == 4);
      Base64UrlRoundTrip(b[3..]);
      assert s[..4] == EncodeQuantum(b[..3]);
      assert s[4..] == rest;
      assert b == b[..3] + b[3..];
    }
  }

  /** Distinct byte strings have distinct encodings. */
  lemma Base64UrlInjective(a: Bytes, b: Bytes)
    ensures Base64Url(a) == Base64Url(b) ==> a == b
  {
    Base64UrlRoundTrip(a);
    Base64UrlRoundTrip(b);
  }

  /** A group's four characters are URL-safe symbols or padding. */
  lemma QuantumShape(q: Bytes)
    requires 1 <= |q| <= 3
    ensures forall i :: 0 <= i < 4 ==> IsSymbol(EncodeQuantum(q)[i]) || EncodeQuantum(q)[i] == PadChar
  {
    var x0 := q[0] as int;
    var x1 := if |q| > 1 then q[1] as int else 0;
    var x2 := if |q| > 2 then q[2] as int else 0;
    SymbolRoundTrip(x0 / 4);
    SymbolRoundTrip((x0 % 4) * 16 + x1 / 16);
    SymbolRoundTrip((x1 % 16) * 4 + x2 / 64);
    SymbolRoundTrip(x2 % 64);
  }

  /** Every 3 input bytes, or part of them, take 4 output characters. */
  lemma {:induction false} Base64UrlLength(b: Bytes)
    ensures |Base64Url(b)| == 4 * ((|b| + 2) / 3)
    decreases |b|
  {
    if |b| > 3 {
      Base64UrlLength(b[3..]);
      assert (|b| + 2) / 3 == (|b[3..]| + 2) / 3 + 1;
    }
  }

  /** Every output character is a URL-safe symbol or padding. */
  lemma {:induction false} Base64UrlAlphabet(b: Bytes)
    ensures forall i :: 0 <= i < |Base64Url(b)| ==> IsSymbol(Base64Url(b)[i]) || Base64Url(b)[i] == PadChar
    decreases |b|
  {
    if 1 <= |b| <= 3 {
      QuantumShape(b);
    } else if |b| > 3 {
      var e := EncodeQuantum(b[..3]);
      var rest := Base64Url(b[3..]);
      QuantumShape(b[..3]);
      Base64UrlAlphabet(b[3..]);
      assert Base64Url(b) == e + rest;
      forall i | 0 <= i < |e + rest|
        ensures IsSymbol((e + rest)[i]) || (e + rest)[i] == PadChar
      {
        if i >= 4 {
          assert (e + rest)[i] == rest[i - 4];
        }
      }
    }
  }

  // ---------------------------------------------------------------------
  // The key

  /** `constructUnhashedKey`: the TTLs enter as whole seconds. */
  function ConstructUnhashedKey(functionName: string, marshalledReq: string, softTTL: int, hardTTL: int,
                                version: string): (r: string)
    ensures |r| > |functionName| && r[..|functionName|] == functionName && r[|functionName|] == ':'
    ensures |r| > |version| && r[|r| - |version|..] == version && r[|r| - |version| - 1] == ':'
  {
    functionName + ":" + marshalledReq + ":" + FormatInt(WholeSeconds(softTTL)) + ":"
      + FormatInt(WholeSeconds(hardTTL)) + ":" + version
  }

  /**
   * `GenerateCacheKey`. `req == None` is Go's untyped nil, which gives an
   * empty request segment; any other request is marshalled, and a
   * marshalling failure is returned before anything is hashed.
   */
  function GenerateCacheKey<T>(req: Option<T>, marshal: T -> Result<string>, sha512: string -> Digest,
                               functionName: string, softTTL: int, hardTTL: int, version: string)
    : (r: Result<string>)
    ensures req.Some? && marshal(req.value).Err? ==> r == Err(Wrapped("", marshal(req.value).error))
    ensures req.None? || marshal(req.value).Ok? ==> r.Ok?
  {
    var marshalled: Result<string> := if req.None? then Ok("") else marshal(req.value);
    match marshalled
    case Err(e) => Err(Wrapped("", e))
    case Ok(text) => Ok(Base64Url(sha512(ConstructUnhashedKey(functionName, text, softTTL, hardTTL, version))))
  }

  /** Each key is 88 characters of the URL-safe alphabet (padding included). */
  lemma KeyShape<T>(req: Option<T>, marshal: T -> Result<string>, sha512: string -> Digest,
                    functionName: string, softTTL: int, hardTTL: int, version: string)
    requires GenerateCacheKey(req, marshal, sha512, functionName, softTTL, hardTTL, version).Ok?
    ensures var key := GenerateCacheKey(req, marshal, sha512, functionName, softTTL, hardTTL, version).value;
      |key| == 88 && forall i :: 0 <= i < |key| ==> IsSymbol(key[i]) || key[i] == PadChar
  {
    var marshalled := if req.None? then "" else marshal(req.value).value;
    var digest := sha512(ConstructUnhashedKey(functionName, marshalled, softTTL, hardTTL, version));
    Base64UrlLength(digest);
    Base64UrlAlphabet(digest);
  }

  /**
   * Two derivations give the same key exactly when the digests of their
   * unhashed keys agree: the key is a function of the unhashed text alone,
   * and the encoding loses nothing of the digest.
   */
  lemma KeyFollowsUnhashedKey<T>(marshal: T -> Result<string>, sha512: string -> Digest,
                                 req1: Option<T>, name1: string, soft1: int, hard1: int, version1: string,
                                 req2: Option<T>, name2: string, soft2: int, hard2: int, version2: string,
                                 text1: string, text2: string)
    requires GenerateCacheKey(req1, marshal, sha512, name1, soft1, hard1, version1).Ok?
    requires GenerateCacheKey(req2, marshal, sha512, name2, soft2, hard2, version2).Ok?
    requires text1 == if req1.None? then "" else marshal(req1.value).value
    requires text2 == if req2.None? then "" else marshal(req2.value).value
    ensures var u1 := ConstructUnhashedKey(name1, text1, soft1, hard1, version1);
      var u2 := ConstructUnhashedKey(name2, text2, soft2, hard2, version2);
      (GenerateCacheKey(req1, marshal, sha512, name1, soft1, hard1, version1)
         == GenerateCacheKey(req2, marshal, sha512, name2, soft2, hard2, version2))
      <==> sha512(u1) == sha512(u2)
  {
    var u1 := ConstructUnhashedKey(name1, text1, soft1, hard1, version1);
    var u2 := ConstructUnhashedKey(name2, text2, soft2, hard2, version2);
    Base64UrlInjective(sha512(u1), sha512(u2));
  }

  /** An untyped nil request leaves the request segment empty. */
  lemma NilRequestSegment<T>(marshal: T -> Result<string>, sha512: string -> Digest,
                             functionName: string, softTTL: int, hardTTL: int, version: string)
    ensures GenerateCacheKey(None, marshal, sha512, functionName, softTTL, hardTTL, version)
         == Ok(Base64Url(sha512(functionName + "::" + FormatInt(WholeSeconds(softTTL)) + ":"
                                + FormatInt(WholeSeconds(hardTTL)) + ":" + version)))
  {
    assert functionName + ":" + "" + ":" == functionName + "::";
  }

  lemma AppendRightCancel(a: string, b: string, x: string)
    requires a != b
    ensures a + x != b + x
  {
    if |a| == |b| {
      var i :| 0 <= i < |a| && a[i] != b[i];
      assert (a + x)[i] == a[i];
      assert (b + x)[i] == b[i];
    } else {
      assert |a + x| != |b + x|;
    }
  }

  lemma AppendLeftCancel(p: string, a: string, b: string)
    requires a != b
    ensures p + a != p + b
  {
    assert (p + a)[|p|..] == a;
    assert (p + b)[|p|..] == b;
  }

  /** A changed middle segment changes the whole text. */
  lemma MiddleChanges(p: string, a: string, b: string, x: string)
    requires a != b
    ensures p + a + x != p + b + x
  {
    AppendLeftCancel(p, a, b);
    AppendRightCancel(p + a, p + b, x);
  }

  /** The unhashed key read as a changing segment followed by a fixed suffix, or the reverse. */
  lemma NameLayout(name: string, req: string, s: string, h: string, version: string)
    ensures name + ":" + req + ":" + s + ":" + h + ":" + version == name + (":" + req + ":" + s + ":" + h + ":" + version)
  {
  }

  lemma RequestLayout(name: string, req: string, s: string, h: string, version: string)
    ensures name + ":" + req + ":" + s + ":" + h + ":" + version == (name + ":") + req + (":" + s + ":" + h + ":" + version)
  {
  }

  lemma SoftLayout(name: string, req: string, s: string, h: string, version: string)
    ensures name + ":" + req + ":" + s + ":" + h + ":" + version == (name + ":" + req + ":") + s + (":" + h + ":" + version)
  {
  }

  lemma HardLayout(name: string, req: string, s: string, h: string, version: string)
    ensures name + ":" + req + ":" + s + ":" + h + ":" + version == (name + ":" + req + ":" + s + ":") + h + (":" + version)
  {
  }

  /**
   * With the other arguments fixed, changing any one of the function name,
   * the request text, the whole seconds of either TTL or the version changes
   * the unhashed key, and TTLs with the same whole seconds give the same key.
   */
  lemma UnhashedKeySeparatesFields(name: string, req: string, soft: int, hard: int, version: string,
                                   name': string, req': string, soft': int, hard': int, version': string)
    ensures name != name' ==>
      ConstructUnhashedKey(name, req, soft, hard, version) != ConstructUnhashedKey(name', req, soft, hard, version)
    ensures req != req' ==>
      ConstructUnhashedKey(name, req, soft, hard, version) != ConstructUnhashedKey(name, req', soft, hard, version)
    ensures (WholeSeconds(soft) == WholeSeconds(soft')) <==>
      ConstructUnhashedKey(name, req, soft, hard, version) == ConstructUnhashedKey(name, req, soft', hard, version)
    ensures (WholeSeconds(hard) == WholeSeconds(hard')) <==>
      ConstructUnhashedKey(name, req, soft, hard, version) == ConstructUnhashedKey(name, req, soft, hard', version)
    ensures version != version' ==>
      ConstructUnhashedKey(name, req, soft, hard, version) != ConstructUnhashedKey(name, req, soft, hard, version')
  {
    var s, s' := FormatInt(WholeSeconds(soft)), FormatInt(WholeSeconds(soft'));
    var h, h' := FormatInt(WholeSeconds(hard)), FormatInt(WholeSeconds(hard'));
    NameLayout(name, req, s, h, version);
    NameLayout(name', req, s, h, version);
    RequestLayout(name, req, s, h, version);
    RequestLayout(name, req', s, h, version);
    SoftLayout(name, req, s, h, version);
    SoftLayout(name, req, s', h, version);
    HardLayout(name, req, s, h, version);
    HardLayout(name, req, s, h', version);
    if name != name' {
      AppendRightCancel(name, name', ":" + req + ":" + s + ":" + h + ":" + version);
    }
    if req != req' {
      MiddleChanges(name + ":", req, req', ":" + s + ":" + h + ":" + version);
    }
    if WholeSeconds(soft) != WholeSeconds(soft') {
      FormatIntRoundTrip(WholeSeconds(soft));
      FormatIntRoundTrip(WholeSeconds(soft'));
      MiddleChanges(name + ":" + req + ":", s, s', ":" + h + ":" + version);
    }
    if WholeSeconds(hard) != WholeSeconds(hard') {
      FormatIntRoundTrip(WholeSeconds(hard));
      FormatIntRoundTrip(WholeSeconds(hard'));
      MiddleChanges(name + ":" + req + ":" + s + ":", h, h', ":" + version);
    }
    if version != version' {
      AppendLeftCancel(name + ":" + req + ":" + s + ":" + h + ":", version, version');
    }
  }
}
