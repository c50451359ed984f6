/**
 The usage-assertion preimage: the encoder both sides sign over, and the separately
 written parser the consumer runs before it counter-signs.
 */
module UsageAssertion {
  import opened Bytes
  import Arithmetic = Numbers

  type uint32 = x: int | 0 <= x < 0x1_0000_0000
  type uint64 = x: int | 0 <= x < 0x1_0000_0000_0000_0000

  datatype Assertion = Assertion(
    requestId: seq<byte>, consumerId: seq<byte>, seederId: seq<byte>, model: seq<byte>,
    inputTokens: uint32, outputTokens: uint32, costCredits: uint64)

  datatype Result<+T, +E> = Ok(value: T) | Err(error: E)

  datatype EncodeError = BadRequestId | BadPartyId | EmptyModel

  datatype ParseError = TooShort | DomainMismatch | BadSeparators | NoModelTerminator | MalformedModel | TokenOverflow

  const DOMAIN := "token-bay/usage-assertion:v1"

  function Domain(): (r: seq<byte>)
    ensures |r| == 28
  {
    assert |DOMAIN| == 28;
    Ascii(DOMAIN)
  }

  // ---------- big-endian numbers ----------

  function Pow256(n: nat): (p: nat)
    ensures p > 0
  {
    if n == 0 then 1 else 256 * Pow256(n - 1)
  }

  function BigEndian(v: nat, n: nat): (r: seq<byte>)
    ensures |r| == n
  {
    if n == 0 then [] else BigEndian(v / 256, n - 1) + [v % 256]
  }

  function NumberOf(bs: seq<byte>): nat {
    if bs == [] then 0 else NumberOf(bs[..|bs| - 1]) * 256 + bs[|bs| - 1]
  }

  lemma {:induction false} NumberOfBigEndian(v: nat, n: nat)
    requires v < Pow256(n)
    ensures NumberOf(BigEndian(v, n)) == v
  {
    if n > 0 {
      NumberOfBigEndian(v / 256, n - 1);
      assert BigEndian(v, n)[..n - 1] == BigEndian(v / 256, n - 1);
    }
  }

  lemma {:induction false} BigEndianOfNumber(bs: seq<byte>)
    ensures NumberOf(bs) < Pow256(|bs|)
    ensures BigEndian(NumberOf(bs), |bs|) == bs
  {
    if bs != [] {
      var init := bs[..|bs| - 1];
      BigEndianOfNumber(init);
      assert NumberOf(bs) / 256 == NumberOf(init);
      assert bs == init + [bs[|bs| - 1]];
    }
  }

  lemma Pow256Of8()
    ensures Pow256(8) == 0x1_0000_0000_0000_0000
  {
    assert Pow256(4) == 256 * (256 * (256 * 256));
    assert Pow256(8) == 256 * (256 * (256 * (256 * Pow256(4))));
  }

  /** Eight bytes carry exactly a 64-bit number. */
  lemma Uint64RoundTrip(v: uint64)
    ensures NumberOf(BigEndian(v, 8)) == v
  {
    Pow256Of8();
    NumberOfBigEndian(v, 8);
  }

  lemma Uint64OfBytes(bs: seq<byte>)
    requires |bs| == 8
    ensures NumberOf(bs) < 0x1_0000_0000_0000_0000 && BigEndian(NumberOf(bs), 8) == bs
  {
    Pow256Of8();
    BigEndianOfNumber(bs);
  }

  // ---------- the encoder ----------

  predicate Encodable(a: Assertion) {
    |a.requestId| == 16 && |a.consumerId| == 32 && |a.seederId| == 32 && a.model != []
  }

  function Header(a: Assertion): seq<byte> {
    Domain() + [0] + a.requestId + [0] + a.consumerId + [0] + a.seederId + [0]
  }

  function Numbers(a: Assertion): seq<byte> {
    BigEndian(a.inputTokens, 8) + BigEndian(a.outputTokens, 8) + BigEndian(a.costCredits, 8)
  }

  /** The domain and the four byte strings, a NUL byte after each, then the three counters in 8 bytes each. */
  function Layout(a: Assertion): seq<byte> {
    Header(a) + a.model + [0] + Numbers(a)
  }

  function Encode(a: Assertion): Result<seq<byte>, EncodeError> {
    if |a.requestId| != 16 then Err(BadRequestId)
    else if |a.consumerId| != 32 || |a.seederId| != 32 then Err(BadPartyId)
    else if a.model == [] then Err(EmptyModel)
    else Ok(Layout(a))
  }

  /** The encoder as written: one buffer grown by appends, one scratch number reused. */
  method CanonicalUsageAssertionPreSig(a: Assertion) returns (r: Result<seq<byte>, EncodeError>)
    ensures r == Encode(a)
  {
    if |a.requestId| != 16 {
      return Err(BadRequestId);
    }
    if |a.consumerId| != 32 || |a.seederId| != 32 {
      return Err(BadPartyId);
    }
    if a.model == [] {
      return Err(EmptyModel);
    }
    var buf := Ascii(DOMAIN);
    buf := buf + [0];
    buf := buf + a.requestId;
    buf := buf + [0];
    buf := buf + a.consumerId;
    buf := buf + [0];
    buf := buf + a.seederId;
    buf := buf + [0];
    assert buf == Header(a);
    buf := buf + a.model;
    buf := buf + [0];
    ghost var text := buf;
    var n := BigEndian(a.inputTokens, 8);
    buf := buf + n;
    n := BigEndian(a.outputTokens, 8);
    buf := buf + n;
    n := BigEndian(a.costCredits, 8);
    buf := buf + n;
    assert buf == text + Numbers(a);
    return Ok(buf);
  }

  // ---------- the parser ----------

  /** The parser works from both ends: fixed fields in front, three numbers behind, the model between. */
  function Parse(body: seq<byte>): Result<Assertion, ParseError> {
    if |body| < 28 + 84 + 1 + 25 then Err(TooShort)
    else if body[..28] != Domain() then Err(DomainMismatch)
    else
      var rest := body[28..];
      if rest[0] != 0 || rest[17] != 0 || rest[50] != 0 || rest[83] != 0 then Err(BadSeparators)
      else
        var tail := rest[84..];
        var numStart := |tail| - 24;
        if numStart < 1 || tail[numStart - 1] != 0 then Err(NoModelTerminator)
        else
          var model := tail[..numStart - 1];
          if model == [] || IndexOf(model, 0) < |model| then Err(MalformedModel)
          else
            var num := tail[numStart..];
            var inTokens, outTokens, cost := NumberOf(num[0..8]), NumberOf(num[8..16]), NumberOf(num[16..24]);
            if inTokens >= 0x1_0000_0000 || outTokens >= 0x1_0000_0000 then Err(TokenOverflow)
            else
              Uint64OfBytes(num[16..24]);
              Ok(Assertion(rest[1..17], rest[18..50], rest[51..83], model, inTokens, outTokens, cost))
  }

  /** Where the encoder put each field. */
  lemma HeaderFields(a: Assertion, tail: seq<byte>)
    requires Encodable(a)
    ensures var rest := (Header(a) + tail)[28..];
            && |Header(a)| == 112
            && (Header(a) + tail)[..28] == Domain()
            && rest[0] == 0 && rest[17] == 0 && rest[50] == 0 && rest[83] == 0
            && rest[1..17] == a.requestId && rest[18..50] == a.consumerId && rest[51..83] == a.seederId
            && rest[84..] == tail
  {
    var ids := [0] + a.requestId + [0] + a.consumerId + [0] + a.seederId + [0];
    assert Header(a) == Domain() + ids;
    var rest := (Header(a) + tail)[28..];
    assert rest == ids + tail;
    assert ids[1..17] == a.requestId && ids[18..50] == a.consumerId && ids[51..83] == a.seederId;
    assert rest[1..17] == ids[1..17] && rest[18..50] == ids[18..50] && rest[51..83] == ids[51..83];
  }

  lemma TailFields(a: Assertion)
    ensures var tail := a.model + [0] + Numbers(a);
            var n := |a.model|;
            && |tail| == n + 25 && tail[n] == 0 && tail[..n] == a.model
            && tail[n + 1..][0..8] == BigEndian(a.inputTokens, 8)
            && tail[n + 1..][8..16] == BigEndian(a.outputTokens, 8)
            && tail[n + 1..][16..24] == BigEndian(a.costCredits, 8)
  {
    var tail := a.model + [0] + Numbers(a);
    assert tail[|a.model| + 1..] == Numbers(a);
  }

  /** Round trip: the parser returns what was encoded if and only if the model has no NUL byte. */
  lemma ParseInvertsEncode(a: Assertion)
    requires Encodable(a)
    ensures Encode(a) == Ok(Layout(a))
    ensures Parse(Layout(a)) == if Without(a.model, 0) then Ok(a) else Err(MalformedModel)
  {
    var tail := a.model + [0] + Numbers(a);
    assert Layout(a) == Header(a) + tail;
    HeaderFields(a, tail);
    TailFields(a);
    Uint64RoundTrip(a.inputTokens);
    Uint64RoundTrip(a.outputTokens);
    Uint64RoundTrip(a.costCredits);
  }

  lemma NumbersRebuilt(a: Assertion, num: seq<byte>)
    requires |num| == 24
    requires a.inputTokens == NumberOf(num[0..8]) && a.outputTokens == NumberOf(num[8..16])
    requires a.costCredits == NumberOf(num[16..24])
    ensures Numbers(a) == num
  {
    Uint64OfBytes(num[0..8]);
    Uint64OfBytes(num[8..16]);
    Uint64OfBytes(num[16..24]);
    assert num == num[0..8] + num[8..16] + num[16..24];
  }

  lemma HeaderRebuilt(a: Assertion, body: seq<byte>)
    requires |body| >= 112 && body[..28] == Domain()
    requires var rest := body[28..];
             && rest[0] == 0 && rest[17] == 0 && rest[50] == 0 && rest[83] == 0
             && a.requestId == rest[1..17] && a.consumerId == rest[18..50] && a.seederId == rest[51..83]
    ensures body == Header(a) + body[28..][84..]
  {
    var rest := body[28..];
    var ids := [0] + a.requestId + [0] + a.consumerId + [0] + a.seederId + [0];
    assert rest[..84] == ids;
    assert Header(a) == Domain() + ids;
  }

  /** Accepted bytes are canonical: re-encoding what was parsed gives the same bytes. */
  lemma EncodeInvertsParse(body: seq<byte>)
    requires Parse(body).Ok?
    ensures Encode(Parse(body).value) == Ok(body)
    ensures Without(Parse(body).value.model, 0)
  {
    var a := Parse(body).value;
    var tail := body[28..][84..];
    var n := |tail| - 24;
    HeaderRebuilt(a, body);
    NumbersRebuilt(a, tail[n..]);
    assert tail == a.model + [0] + tail[n..];
    assert body == Header(a) + a.model + [0] + tail[n..];
  }

  /** The bytes encode some assertion whose model has no NUL byte. */
  ghost predicate Encoded(body: seq<byte>) {
    exists a: Assertion :: Encode(a) == Ok(body) && Without(a.model, 0)
  }

  /** The parser accepts exactly those bytes. */
  lemma ParseAccepts(body: seq<byte>)
    ensures Parse(body).Ok? <==> Encoded(body)
  {
    if Parse(body).Ok? {
      EncodeInvertsParse(body);
    }
    if Encoded(body) {
      var a: Assertion :| Encode(a) == Ok(body) && Without(a.model, 0);
      ParseInvertsEncode(a);
    }
  }

  /** The first rule an assertion breaks, or none. */
  lemma EncodeErrors(a: Assertion)
    ensures (Encode(a) == Err(BadRequestId) <==> |a.requestId| != 16)
    ensures (Encode(a) == Err(BadPartyId) <==> |a.requestId| == 16 && (|a.consumerId| != 32 || |a.seederId| != 32))
    ensures (Encode(a) == Err(EmptyModel)
             <==> |a.requestId| == 16 && |a.consumerId| == 32 && |a.seederId| == 32 && a.model == [])
  {
  }

  lemma HeaderBytes(a: Assertion, k: nat)
    requires Encodable(a) && k < 112
    ensures var h := Header(a);
            && |h| == 112
            && (k < 28 ==> h[k] == "token-bay/usage-assertion:v1"[k] as int)
            && (k in {28, 45, 78, 111} ==> h[k] == 0)
            && (29 <= k < 45 ==> h[k] == a.requestId[k - 29])
            && (46 <= k < 78 ==> h[k] == a.consumerId[k - 46])
            && (79 <= k < 111 ==> h[k] == a.seederId[k - 79])
  {
  }

  /** The three counters, each with its most significant byte first. */
  lemma NumberBytes(a: Assertion, k: nat)
    requires k < 24
    ensures var n := Numbers(a);
            && |n| == 24
            && (k < 8 ==> n[k] == (a.inputTokens / Pow256(7 - k)) % 256)
            && (8 <= k < 16 ==> n[k] == (a.outputTokens / Pow256(15 - k)) % 256)
            && (16 <= k < 24 ==> n[k] == (a.costCredits / Pow256(23 - k)) % 256)
  {
    if k < 8 {
      BigEndianDigit(a.inputTokens, 8, k);
    } else if k < 16 {
      BigEndianDigit(a.outputTokens, 8, k - 8);
    } else {
      BigEndianDigit(a.costCredits, 8, k - 16);
    }
  }

  /** A preimage is the header, the model, a NUL byte and the counters; the bytes of each are given above. */
  lemma LayoutBytes(a: Assertion)
    requires Encodable(a)
    ensures var m := |a.model|;
            && Encode(a).Ok? && |Encode(a).value| == 137 + m
            && Encode(a).value[..112] == Header(a) && Encode(a).value[112..112 + m] == a.model
            && Encode(a).value[112 + m] == 0 && Encode(a).value[113 + m..] == Numbers(a)
  {
    HeaderBytes(a, 0);
    var b, m := Layout(a), |a.model|;
    assert b == Header(a) + (a.model + [0] + Numbers(a));
    assert b[112..] == a.model + [0] + Numbers(a);
    assert b[113 + m..] == b[112..][m + 1..];
  }

  lemma {:induction false} BigEndianDigit(v: nat, n: nat, k: nat)
    requires k < n
    ensures BigEndian(v, n)[k] == (v / Pow256(n - 1 - k)) % 256
  {
    if k == n - 1 {
      assert Pow256(0) == 1;
    } else {
      BigEndianDigit(v / 256, n - 1, k);
      DivTwice(v, Pow256(n - 2 - k));
    }
  }

  lemma DivTwice(v: nat, p: nat)
    requires p > 0
    ensures v / 256 / p == v / (256 * p)
  {
    var q, r := v / 256 / p, v / 256 % p;
    var s := v % 256;
    assert v == 256 * (p * q + r) + s;
    assert v == (256 * p) * q + (256 * r + s);
    assert 256 * r + s < 256 * p;
    Arithmetic.Residue(v, 256 * p, q, 256 * r + s);
  }

  /** No two accepted assertions share a preimage, even when their models contain NUL bytes. */
  lemma EncodeInjective(a: Assertion, b: Assertion)
    requires Encodable(a) && Encodable(b) && Layout(a) == Layout(b)
    ensures a == b
  {
    var ta, tb := a.model + [0] + Numbers(a), b.model + [0] + Numbers(b);
    assert Layout(a) == Header(a) + ta && Layout(b) == Header(b) + tb;
    HeaderFields(a, ta);
    HeaderFields(b, tb);
    TailFields(a);
    TailFields(b);
    Uint64RoundTrip(a.inputTokens);
    Uint64RoundTrip(b.inputTokens);
    Uint64RoundTrip(a.outputTokens);
    Uint64RoundTrip(b.outputTokens);
    Uint64RoundTrip(a.costCredits);
    Uint64RoundTrip(b.costCredits);
  }

  /** Two different accepted preimages never parse to the same assertion. */
  lemma ParseInjective(x: seq<byte>, y: seq<byte>)
    requires Parse(x).Ok? && Parse(x) == Parse(y)
    ensures x == y
  {
    EncodeInvertsParse(x);
    EncodeInvertsParse(y);
  }

  /** The audit log's int64 view of a cost. */
  function ClampToInt64(v: uint64): (r: int)
    ensures 0 <= r < 0x8000_0000_0000_0000 && r <= v
    ensures r == v || (r == 0x7FFF_FFFF_FFFF_FFFF && v > r)
  {
    if v > 0x7FFF_FFFF_FFFF_FFFF then 0x7FFF_FFFF_FFFF_FFFF else v
  }
}
