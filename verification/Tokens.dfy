/** Signed, purpose-bound tokens: version, purpose tag, issue time, expiry, subject and MAC, as base64url text. The
    keyed MAC is a parameter; nothing is assumed of it but its length. */
module Tokens {
  import opened Common
  import Base64Url

  datatype Purpose = ConfirmSubscriber | UnsubscribeSubscriber | OtherPurpose(name: string)

  datatype Error = UnknownPurpose | NotBase64 | TooShort | BadSignature | BadVersion | PurposeMismatch | Expired

  type Mac = Bytes -> Bytes

  const HEADER_LENGTH := 18
  const MAC_LENGTH := 32

  ghost predicate MacOk(mac: Mac) {
    forall b: Bytes :: |mac(b)| == MAC_LENGTH
  }

  function PurposeByte(p: Purpose): Byte {
    match p
    case ConfirmSubscriber => 1
    case UnsubscribeSubscriber => 2
    case OtherPurpose(_) => 0
  }

  // ---- Big-endian two's complement ----

  function BigEndian(n: nat, u: nat): (b: Bytes)
    ensures |b| == n
  {
    if n == 0 then [] else BigEndian(n - 1, u / 256) + [u % 256]
  }

  function ToNat(b: Bytes): nat {
    if b == [] then 0 else ToNat(b[..|b| - 1]) * 256 + b[|b| - 1]
  }

  function Pow256(n: nat): nat {
    if n == 0 then 1 else 256 * Pow256(n - 1)
  }

  lemma {:induction false} BigEndianRead(n: nat, u: nat)
    requires u < Pow256(n)
    ensures ToNat(BigEndian(n, u)) == u
  {
    if n > 0 {
      BigEndianRead(n - 1, u / 256);
      assert BigEndian(n, u)[..n - 1] == BigEndian(n - 1, u / 256);
    }
  }

  lemma {:induction false} BigEndianWrite(b: Bytes)
    ensures ToNat(b) < Pow256(|b|)
    ensures BigEndian(|b|, ToNat(b)) == b
  {
    if b != [] {
      var front, last := b[..|b| - 1], b[|b| - 1];
      BigEndianWrite(front);
      assert ToNat(b) / 256 == ToNat(front) && ToNat(b) % 256 == last;
      assert front + [last] == b;
    }
  }

  lemma Pow256Of8()
    ensures Pow256(8) == TWO_TO_THE_64
  {
    assert Pow256(4) == 0x1_0000_0000;
  }

  function Unsigned(x: Int64): (u: nat)
    ensures u < TWO_TO_THE_64
  {
    if x < 0 then x + TWO_TO_THE_64 else x
  }

  function Signed(u: nat): Int64
    requires u < TWO_TO_THE_64
  {
    if u < TWO_TO_THE_63 then u else u - TWO_TO_THE_64
  }

  function PutInt64(x: Int64): (b: Bytes)
    ensures |b| == 8
  {
    BigEndian(8, Unsigned(x))
  }

  function GetInt64(b: Bytes): Int64
    requires |b| == 8
  {
    BigEndianWrite(b);
    Pow256Of8();
    Signed(ToNat(b))
  }

  lemma Int64RoundTrip(x: Int64)
    ensures GetInt64(PutInt64(x)) == x
  {
    Pow256Of8();
    BigEndianRead(8, Unsigned(x));
  }

  lemma Int64Surjective(b: Bytes)
    requires |b| == 8
    ensures PutInt64(GetInt64(b)) == b
  {
    BigEndianWrite(b);
    Pow256Of8();
  }

  // ---- Printing and parsing ----

  function Payload(tag: Byte, issued: Int64, expires: Int64, subject: Bytes): (b: Bytes)
    ensures |b| == HEADER_LENGTH + |subject|
  {
    [1, tag] + PutInt64(issued) + PutInt64(expires) + subject
  }

  function TokenBytes(mac: Mac, tag: Byte, issued: Int64, expires: Int64, subject: Bytes): Bytes {
    var payload := Payload(tag, issued, expires, subject);
    payload + mac(payload)
  }

  /** Seconds since 1970 as Go's Time.Unix gives them: rounded down, in an int64. */
  function UnixSeconds(instant: int): Int64 {
    Wrap64(instant / SECOND)
  }

  /** The expiry field; the zero time, here `None`, prints as 0. */
  function ExpiryField(expiresAt: Option<int>): Int64 {
    match expiresAt
    case None => 0
    case Some(t) => UnixSeconds(t)
  }

  function IssueSpec(mac: Mac, purpose: Purpose, subject: Bytes, now: int, expiresAt: Option<int>)
    : Result<string, Error>
  {
    if PurposeByte(purpose) == 0 then Err(UnknownPurpose)
    else Ok(Base64Url.Encode(
              TokenBytes(mac, PurposeByte(purpose), UnixSeconds(now), ExpiryField(expiresAt), subject)))
  }

  function Verify(mac: Mac, token: string, expected: Purpose, now: int): Result<Bytes, Error> {
    match Base64Url.Decode(token)
    case None => Err(NotBase64)
    case Some(raw) =>
      if |raw| < HEADER_LENGTH + MAC_LENGTH then Err(TooShort) else
      var payload, sig := raw[..|raw| - MAC_LENGTH], raw[|raw| - MAC_LENGTH..];
      if sig != mac(payload) then Err(BadSignature)
      else if payload[0] != 1 then Err(BadVersion)
      else if payload[1] != PurposeByte(expected) then Err(PurposeMismatch)
      else
        var expires := GetInt64(payload[10..18]);
        if expires != 0 && UnixSeconds(now) > expires then Err(Expired)
        else Ok(payload[HEADER_LENGTH..])
  }

  method PutUint64(buf: array<Byte>, offset: nat, value: nat)
    requires offset + 8 <= buf.Length && value < TWO_TO_THE_64
    modifies buf
    ensures buf[..] == old(buf[..offset]) + BigEndian(8, value) + old(buf[offset + 8..])
  {
    var k := 8;
    var rest := value;
    assert BigEndian(0, rest) == [];
    while k > 0
      invariant 0 <= k <= 8 && rest >= 0
      invariant buf[..offset] == old(buf[..offset]) && buf[offset + 8..] == old(buf[offset + 8..])
      invariant BigEndian(k, rest) + buf[offset + k..offset + 8] == BigEndian(8, value)
    {
      k := k - 1;
      buf[offset + k] := rest % 256;
      assert buf[offset + k..offset + 8] == [rest % 256] + buf[offset + k + 1..offset + 8];
      rest := rest / 256;
    }
    assert buf[..] == buf[..offset] + buf[offset..offset + 8] + buf[offset + 8..];
  }

  method PutHeader(payload: array<Byte>, tag: Byte, issued: Int64, expires: Int64)
    requires payload.Length >= HEADER_LENGTH
    modifies payload
    ensures payload[..HEADER_LENGTH] == [1, tag] + PutInt64(issued) + PutInt64(expires)
  {
    payload[0] := 1;
    payload[1] := tag;
    PutUint64(payload, 2, Unsigned(issued));
    assert payload[..10] == [1, tag] + PutInt64(issued);
    PutUint64(payload, 10, Unsigned(expires));
    assert payload[..18] == payload[..10] + payload[10..18];
  }

  method CopySubject(payload: array<Byte>, subject: Bytes)
    requires payload.Length == HEADER_LENGTH + |subject|
    modifies payload
    ensures payload[..] == old(payload[..HEADER_LENGTH]) + subject
  {
    for i := 0 to |subject|
      invariant payload[..HEADER_LENGTH] == old(payload[..HEADER_LENGTH])
      invariant payload[HEADER_LENGTH..HEADER_LENGTH + i] == subject[..i]
    {
      payload[HEADER_LENGTH + i] := subject[i];
    }
  }

  // The payload is filled in place, then signed and encoded.
  method Issue(mac: Mac, purpose: Purpose, subject: Bytes, now: int, expiresAt: Option<int>)
    returns (r: Result<string, Error>)
    ensures r == IssueSpec(mac, purpose, subject, now, expiresAt)
  {
    var tag := PurposeByte(purpose);
    if tag == 0 {
      return Err(UnknownPurpose);
    }
    var expires := 0;
    if expiresAt.Some? {
      expires := UnixSeconds(expiresAt.value);
    }
    var payload := new Byte[HEADER_LENGTH + |subject|](_ => 0);
    PutHeader(payload, tag, UnixSeconds(now), expires);
    CopySubject(payload, subject);
    var out := payload[..] + mac(payload[..]);
    return Ok(Base64Url.Encode(out));
  }

  // ---- Round trip and its converse ----

  lemma ParsePayload(tag: Byte, issued: Int64, expires: Int64, subject: Bytes)
    ensures var p := Payload(tag, issued, expires, subject);
            p[0] == 1 && p[1] == tag && GetInt64(p[10..18]) == expires && p[HEADER_LENGTH..] == subject
  {
    var p := Payload(tag, issued, expires, subject);
    assert p[10..18] == PutInt64(expires);
    Int64RoundTrip(expires);
  }

  // A token that was issued verifies for exactly its own purpose, until its expiry second has passed, and then gives
  // back exactly its subject.
  lemma IssuedVerifies(mac: Mac, p: Purpose, q: Purpose, subject: Bytes, issued: int, expiresAt: Option<int>, now: int)
    requires MacOk(mac) && PurposeByte(p) != 0
    ensures IssueSpec(mac, p, subject, issued, expiresAt).Ok?
    ensures Verify(mac, IssueSpec(mac, p, subject, issued, expiresAt).value, q, now)
         == if q != p then Err(PurposeMismatch)
            else if ExpiryField(expiresAt) != 0 && UnixSeconds(now) > ExpiryField(expiresAt) then Err(Expired)
            else Ok(subject)
  {
    var payload := Payload(PurposeByte(p), UnixSeconds(issued), ExpiryField(expiresAt), subject);
    var raw := TokenBytes(mac, PurposeByte(p), UnixSeconds(issued), ExpiryField(expiresAt), subject);
    Base64Url.RoundTrip(raw);
    assert raw[..|raw| - MAC_LENGTH] == payload && raw[|raw| - MAC_LENGTH..] == mac(payload);
    ParsePayload(PurposeByte(p), UnixSeconds(issued), ExpiryField(expiresAt), subject);
  }

  // Conversely only the bytes of an issued token verify. (The text is not unique, because the decoder is lenient.)
  lemma VerifiedWasIssued(mac: Mac, token: string, q: Purpose, now: int) returns (issued: Int64, expires: Int64)
    requires MacOk(mac) && Verify(mac, token, q, now).Ok?
    ensures Base64Url.Decode(token)
         == Some(TokenBytes(mac, PurposeByte(q), issued, expires, Verify(mac, token, q, now).value))
    ensures expires == 0 || UnixSeconds(now) <= expires
  {
    var raw := Base64Url.Decode(token).value;
    var payload := raw[..|raw| - MAC_LENGTH];
    issued, expires := GetInt64(payload[2..10]), GetInt64(payload[10..18]);
    PrintPayload(payload);
    assert raw == payload + raw[|raw| - MAC_LENGTH..];
  }

  // ---- The wire format ----

  // The number that eight bytes stand for, the most significant first.
  function Word(b: Bytes): int
    requires |b| == 8
  {
    var high := Half(b[0], b[1], b[2], b[3]);
    var low := Half(b[4], b[5], b[6], b[7]);
    high * 0x1_0000_0000 + low
  }

  function Half(w: int, x: int, y: int, z: int): int {
    w * 0x100_0000 + x * 0x1_0000 + y * 0x100 + z
  }

  lemma WordIsToNat(b: Bytes)
    requires |b| == 8
    ensures ToNat(b) == Word(b)
  {
    assert b[..8] == b;
    forall k | 0 < k <= 8 ensures ToNat(b[..k]) == ToNat(b[..k - 1]) * 256 + b[k - 1] {
      assert b[..k][..k - 1] == b[..k - 1];
    }
    assert ToNat(b[..4]) == Half(b[0], b[1], b[2], b[3]) by {
      assert ToNat(b[..1]) == b[0];
    }
    assert ToNat(b[..6]) == (ToNat(b[..4]) * 256 + b[4]) * 256 + b[5];
  }

  // The time in eight bytes, as a 64-bit two's complement number.
  predicate Carries(b: Bytes, x: Int64) {
    |b| == 8 && Word(b) == if x < 0 then x + 0x1_0000_0000_0000_0000 else x
  }

  lemma PutCarries(x: Int64)
    ensures Carries(PutInt64(x), x)
  {
    Pow256Of8();
    BigEndianRead(8, Unsigned(x));
    WordIsToNat(PutInt64(x));
  }

  lemma PurposeTags()
    ensures PurposeByte(ConfirmSubscriber) == 1 && PurposeByte(UnsubscribeSubscriber) == 2
    ensures forall name :: PurposeByte(OtherPurpose(name)) == 0
  {
  }

  // Version 1, the purpose (1 to confirm, 2 to unsubscribe), the time of issue, the expiry (0 for none), the subject,
  // and the MAC over all of that.
  lemma IssuedLayout(mac: Mac, p: Purpose, subject: Bytes, issued: int, expiresAt: Option<int>)
    requires MacOk(mac) && (p == ConfirmSubscriber || p == UnsubscribeSubscriber)
    requires 0 <= issued < TWO_TO_THE_63 * SECOND
    requires expiresAt.Some? ==> 0 <= expiresAt.value < TWO_TO_THE_63 * SECOND
    ensures IssueSpec(mac, p, subject, issued, expiresAt).Ok?
    ensures Base64Url.Decode(IssueSpec(mac, p, subject, issued, expiresAt).value).Some?
    ensures var raw := Base64Url.Decode(IssueSpec(mac, p, subject, issued, expiresAt).value).value;
            && |raw| == 18 + |subject| + 32
            && raw[0] == 1 && raw[1] == (if p == ConfirmSubscriber then 1 else 2)
            && Carries(raw[2..10], issued / 1_000_000_000)
            && Carries(raw[10..18], if expiresAt == None then 0 else expiresAt.value / 1_000_000_000)
            && raw[18..|raw| - 32] == subject && raw[|raw| - 32..] == mac(raw[..|raw| - 32])
  {
    PurposeTags();
    var tag := PurposeByte(p);
    var raw := TokenBytes(mac, tag, UnixSeconds(issued), ExpiryField(expiresAt), subject);
    var payload := Payload(tag, UnixSeconds(issued), ExpiryField(expiresAt), subject);
    Base64Url.RoundTrip(raw);
    PutCarries(UnixSeconds(issued));
    PutCarries(ExpiryField(expiresAt));
    assert raw[2..10] == PutInt64(UnixSeconds(issued)) && raw[10..18] == PutInt64(ExpiryField(expiresAt));
    assert raw[..|raw| - 32] == payload && raw[18..|raw| - 32] == subject;
  }

  // ---- Expiry on the clock ----

  // A token with an expiry verifies exactly before the end of the second in which it expires; an expiry within the
  // first second of 1970 is none.
  lemma IssuedUntil(mac: Mac, p: Purpose, subject: Bytes, issued: int, expiresAt: int, now: int)
    requires MacOk(mac) && PurposeByte(p) != 0
    requires -TWO_TO_THE_63 * SECOND <= expiresAt < TWO_TO_THE_63 * SECOND
    requires -TWO_TO_THE_63 * SECOND <= now < TWO_TO_THE_63 * SECOND
    ensures IssueSpec(mac, p, subject, issued, Some(expiresAt)).Ok?
    ensures Verify(mac, IssueSpec(mac, p, subject, issued, Some(expiresAt)).value, p, now).Ok? <==>
            0 <= expiresAt < 1_000_000_000 || now < expiresAt - expiresAt % 1_000_000_000 + 1_000_000_000
  {
    IssuedVerifies(mac, p, p, subject, issued, Some(expiresAt), now);
    WholeSeconds(expiresAt);
    WholeSeconds(now);
  }

  lemma WholeSeconds(t: int)
    requires -TWO_TO_THE_63 * SECOND <= t < TWO_TO_THE_63 * SECOND
    ensures UnixSeconds(t) * 1_000_000_000 == t - t % 1_000_000_000
  {
    assert -TWO_TO_THE_63 <= t / SECOND < TWO_TO_THE_63;
  }

  /** What the MAC of a token is meant to cover. */
  function SignedPart(token: string): Option<Bytes> {
    match Base64Url.Decode(token)
    case None => None
    case Some(raw) => if |raw| < MAC_LENGTH then None else Some(raw[..|raw| - MAC_LENGTH])
  }

  // A token that verifies is determined, up to its spelling, by what its MAC covers.
  lemma VerifiedBySignedPart(mac: Mac, token: string, q: Purpose, now: int)
    requires Verify(mac, token, q, now).Ok?
    ensures SignedPart(token).Some?
    ensures Base64Url.Decode(token) == Some(SignedPart(token).value + mac(SignedPart(token).value))
  {
    var raw := Base64Url.Decode(token).value;
    assert raw == raw[..|raw| - MAC_LENGTH] + raw[|raw| - MAC_LENGTH..];
  }

  lemma PrintPayload(p: Bytes)
    requires |p| >= HEADER_LENGTH && p[0] == 1
    ensures Payload(p[1], GetInt64(p[2..10]), GetInt64(p[10..18]), p[HEADER_LENGTH..]) == p
  {
    Int64Surjective(p[2..10]);
    Int64Surjective(p[10..18]);
    assert p[..2] == [1, p[1]];
    assert p == p[..2] + p[2..10] + p[10..18] + p[HEADER_LENGTH..];
  }

  // Two issued tokens never share their bytes unless purpose, times and subject all agree.
  lemma TokenBytesInjective(mac: Mac, t1: Byte, i1: Int64, e1: Int64, s1: Bytes,
                            t2: Byte, i2: Int64, e2: Int64, s2: Bytes)
    requires MacOk(mac) && TokenBytes(mac, t1, i1, e1, s1) == TokenBytes(mac, t2, i2, e2, s2)
    ensures t1 == t2 && i1 == i2 && e1 == e2 && s1 == s2
  {
    var p, q := Payload(t1, i1, e1, s1), Payload(t2, i2, e2, s2);
    assert p == TokenBytes(mac, t1, i1, e1, s1)[..|p|] && q == TokenBytes(mac, t2, i2, e2, s2)[..|q|];
    ParsePayload(t1, i1, e1, s1);
    ParsePayload(t2, i2, e2, s2);
    assert p[2..10] == PutInt64(i1) && q[2..10] == PutInt64(i2);
    Int64RoundTrip(i1);
    Int64RoundTrip(i2);
  }
}
