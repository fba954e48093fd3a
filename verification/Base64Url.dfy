/** Unpadded base64url (section 5 of RFC 4648) with a decoder as lenient as Go's RawURLEncoding: it skips line breaks
    and ignores the unused low bits of the last character. */
module Base64Url {
  import opened Common

  type Sextet = i: int | 0 <= i < 64

  function Digit(i: Sextet): char {
    if i < 26 then ('A' as int + i) as char
    else if i < 52 then ('a' as int + (i - 26)) as char
    else if i < 62 then ('0' as int + (i - 52)) as char
    else if i == 62 then '-'
    else '_'
  }

  function Value(c: char): Option<Sextet> {
    if 'A' <= c <= 'Z' then Some(c as int - 'A' as int)
    else if 'a' <= c <= 'z' then Some(c as int - 'a' as int + 26)
    else if '0' <= c <= '9' then Some(c as int - '0' as int + 52)
    else if c == '-' then Some(62)
    else if c == '_' then Some(63)
    else None
  }

  // Six-bit groups, most significant first; a short tail is filled with zero bits.
  function Split(b: Bytes): seq<Sextet> {
    if |b| == 0 then []
    else
      var x: int := b[0];
      if |b| == 1 then [x / 4, x % 4 * 16]
      else
        var y: int := b[1];
        if |b| == 2 then [x / 4, x % 4 * 16 + y / 16, y % 16 * 4]
        else
          var z: int := b[2];
          [x / 4, x % 4 * 16 + y / 16, y % 16 * 4 + z / 64, z % 64] + Split(b[3..])
  }

  function ThreeBytes(p: int, q: int, r: int, s: int): (b: Bytes)
    requires 0 <= p < 64 && 0 <= q < 64 && 0 <= r < 64 && 0 <= s < 64
    ensures |b| == 3
  {
    [p * 4 + q / 16, q % 16 * 16 + r / 4, r % 4 * 64 + s]
  }

  function Pack(v: seq<Sextet>): Option<Bytes> {
    if |v| == 0 then Some([])
    else if |v| == 1 then None
    else
      var p: int, q: int := v[0], v[1];
      if |v| == 2 then Some([p * 4 + q / 16])
      else
        var r: int := v[2];
        if |v| == 3 then Some([p * 4 + q / 16, q % 16 * 16 + r / 4])
        else
          var s: int := v[3];
          match Pack(v[4..])
          case Some(rest) => Some(ThreeBytes(p, q, r, s) + rest)
          case None => None
  }

  function Digits(v: seq<Sextet>): string {
    if v == [] then "" else [Digit(v[0])] + Digits(v[1..])
  }

  function Values(s: string): Option<seq<Sextet>> {
    if s == "" then Some([])
    else match (Value(s[0]), Values(s[1..]))
      case (Some(v), Some(vs)) => Some([v] + vs)
      case _ => None
  }

  function SkipBreaks(s: string): string {
    if s == "" then ""
    else if s[0] == '\r' || s[0] == '\n' then SkipBreaks(s[1..])
    else [s[0]] + SkipBreaks(s[1..])
  }

  function Encode(b: Bytes): string {
    Digits(Split(b))
  }

  function Decode(s: string): Option<Bytes> {
    match Values(SkipBreaks(s))
    case Some(v) => Pack(v)
    case None => None
  }

  // The alphabet of section 5 of RFC 4648: capitals, small letters, figures, hyphen and low line, each run in order.
  predicate Spells(c: char, i: int) {
    if 0 <= i < 26 then c as int == 65 + i
    else if i < 52 then c as int == 97 + i - 26
    else if i < 62 then c as int == 48 + i - 52
    else c == if i == 62 then '-' else '_'
  }

  // Number of three bytes, and of four sextets.
  function Bits24(x: int, y: int, z: int): int {
    x * 0x1_0000 + y * 0x100 + z
  }

  function Bits6(p: int, q: int, r: int, s: int): int {
    p * 0x4_0000 + q * 0x1000 + r * 0x40 + s
  }

  // The sextets of each three bytes are the same 24-bit number; a tail of one or two bytes is filled up with zero bits.
  ghost predicate Groups(b: Bytes, v: seq<Sextet>) {
    if |b| >= 3 then
      && |v| >= 4
      && Bits6(v[0], v[1], v[2], v[3]) == Bits24(b[0], b[1], b[2])
      && Groups(b[3..], v[4..])
    else if |b| == 2 then |v| == 3 && Bits6(v[0], v[1], v[2], 0) == Bits24(b[0], b[1], 0)
    else if |b| == 1 then |v| == 2 && Bits6(v[0], v[1], 0, 0) == Bits24(b[0], 0, 0)
    else v == []
  }

  lemma {:induction false} SplitGroups(b: Bytes)
    ensures Groups(b, Split(b))
    decreases |b|
  {
    if |b| >= 3 {
      SplitGroups(b[3..]);
      assert Split(b)[4..] == Split(b[3..]);
    }
  }

  // An encoding spells the bytes out, three bytes in four characters of the alphabet.
  lemma EncodingSpells(b: Bytes)
    ensures |Encode(b)| == |Split(b)| && Groups(b, Split(b))
    ensures forall i :: 0 <= i < |Split(b)| ==> Spells(Encode(b)[i], Split(b)[i])
  {
    SplitGroups(b);
    DigitsSpell(Split(b));
  }

  lemma {:induction false} DigitsSpell(v: seq<Sextet>)
    ensures |Digits(v)| == |v| && forall i :: 0 <= i < |v| ==> Spells(Digits(v)[i], v[i])
  {
    if v != [] {
      DigitsSpell(v[1..]);
    }
  }

  lemma DigitValue(i: Sextet)
    ensures Value(Digit(i)) == Some(i)
    ensures Digit(i) != '\r' && Digit(i) != '\n'
  {
  }

  lemma {:induction false} DigitsRead(v: seq<Sextet>)
    ensures SkipBreaks(Digits(v)) == Digits(v)
    ensures Values(Digits(v)) == Some(v)
  {
    if v != [] {
      DigitValue(v[0]);
      DigitsRead(v[1..]);
      assert Digits(v)[1..] == Digits(v[1..]);
      assert [v[0]] + v[1..] == v;
    }
  }

  // The arithmetic of three bytes regrouped into four sextets and back.
  lemma Regroup(x: Byte, y: Byte, z: Byte)
    ensures x / 4 * 4 + (x % 4 * 16 + y / 16) / 16 == x
    ensures (x % 4 * 16 + y / 16) % 16 * 16 + (y % 16 * 4 + z / 64) / 4 == y
    ensures (y % 16 * 4 + z / 64) % 4 * 64 + z % 64 == z
  {
  }

  lemma {:induction false} PackSplit(b: Bytes)
    ensures Pack(Split(b)) == Some(b)
  {
    if |b| == 1 {
      Regroup(b[0], 0, 0);
      assert b == [b[0]];
    } else if |b| == 2 {
      Regroup(b[0], b[1], 0);
      assert b == [b[0], b[1]];
    } else if |b| >= 3 {
      Regroup(b[0], b[1], b[2]);
      PackSplit(b[3..]);
      assert Split(b)[4..] == Split(b[3..]);
      assert [b[0], b[1], b[2]] + b[3..] == b;
    }
  }

  lemma RoundTrip(b: Bytes)
    ensures Decode(Encode(b)) == Some(b)
  {
    DigitsRead(Split(b));
    PackSplit(b);
  }

  // ---- When two texts decode alike ----

  // The unused low bits of the last sextet set to zero.
  function Trimmed(v: seq<Sextet>): seq<Sextet> {
    if |v| >= 4 then v[..4] + Trimmed(v[4..])
    else if |v| == 3 then [v[0], v[1], v[2] as int / 4 * 4]
    else if |v| == 2 then [v[0], v[1] as int / 16 * 16]
    else v
  }

  // The arithmetic of four sextets regrouped into three bytes and back.
  lemma Ungroup(p: Sextet, q: Sextet, r: Sextet, s: Sextet)
    ensures (p * 4 + q / 16) / 4 == p
    ensures (p * 4 + q / 16) % 4 * 16 + (q % 16 * 16 + r / 4) / 16 == q
    ensures (q % 16 * 16 + r / 4) % 16 * 4 + (r % 4 * 64 + s) / 64 == r
    ensures (r % 4 * 64 + s) % 64 == s
    ensures (p * 4 + q / 16) % 4 * 16 == q / 16 * 16
    ensures (q % 16 * 16 + r / 4) % 16 * 4 == r / 4 * 4
  {
  }

  lemma SplitPair(p: Sextet, q: Sextet)
    ensures Pack([p, q]).Some? && Split(Pack([p, q]).value) == [p, q / 16 * 16] == Trimmed([p, q])
  {
    Ungroup(p, q, 0, 0);
  }

  lemma SplitTriple(p: Sextet, q: Sextet, r: Sextet)
    ensures Pack([p, q, r]).Some? && Split(Pack([p, q, r]).value) == [p, q, r / 4 * 4] == Trimmed([p, q, r])
  {
    Ungroup(p, q, r, 0);
  }

  lemma SplitGroup(p: Sextet, q: Sextet, r: Sextet, s: Sextet, rest: Bytes)
    ensures Split(ThreeBytes(p, q, r, s) + rest) == [p, q, r, s] + Split(rest)
  {
    Ungroup(p, q, r, s);
    var b: Bytes := ThreeBytes(p, q, r, s) + rest;
    assert b[3..] == rest;
  }

  lemma SplitLonger(v: seq<Sextet>, rest: Bytes, tail: seq<Sextet>)
    requires |v| >= 4 && Pack(v[4..]) == Some(rest) && Split(rest) == tail
    ensures Pack(v).Some? && Split(Pack(v).value) == v[..4] + tail
  {
    SplitGroup(v[0], v[1], v[2], v[3], rest);
    assert v[..4] == [v[0], v[1], v[2], v[3]];
  }

  // Packing fails only for a single sextet left over.
  lemma {:induction false} PackLength(v: seq<Sextet>)
    ensures Pack(v).Some? <==> |v| % 4 != 1
  {
    if |v| >= 4 {
      var rest := v[4..];
      PackLength(rest);
      assert Pack(v).Some? <==> Pack(rest).Some?;
      assert |v| == |rest| + 4;
    }
  }

  // And it loses only the unused bits.
  lemma {:induction false} SplitPack(v: seq<Sextet>)
    requires Pack(v).Some?
    ensures Split(Pack(v).value) == Trimmed(v)
  {
    if |v| >= 4 {
      SplitPack(v[4..]);
      SplitLonger(v, Pack(v[4..]).value, Trimmed(v[4..]));
    } else if |v| == 2 {
      SplitPair(v[0], v[1]);
      assert v == [v[0], v[1]];
    } else if |v| == 3 {
      SplitTriple(v[0], v[1], v[2]);
      assert v == [v[0], v[1], v[2]];
    }
  }

  // The sextets of a text, line breaks aside and without unused bits, unless it has other characters or one too many.
  function Meaning(s: string): Option<seq<Sextet>> {
    match Values(SkipBreaks(s))
    case Some(v) => if |v| % 4 != 1 then Some(Trimmed(v)) else None
    case None => None
  }

  // Exactly the texts with a meaning decode, two texts decode alike exactly if they have the same meaning, and the
  // encoder writes that meaning out.
  lemma DecodesAlike(s: string, t: string)
    ensures Decode(s).Some? <==> Meaning(s).Some?
    ensures Decode(s) == Decode(t) <==> Meaning(s) == Meaning(t)
    ensures Decode(s).Some? ==> Encode(Decode(s).value) == Digits(Meaning(s).value)
  {
    DecodesByMeaning(s);
    DecodesByMeaning(t);
  }

  lemma DecodesByMeaning(s: string)
    ensures Decode(s).Some? <==> Meaning(s).Some?
    ensures Decode(s).Some? ==> Split(Decode(s).value) == Meaning(s).value && Decode(s) == Pack(Meaning(s).value)
  {
    if Values(SkipBreaks(s)).Some? {
      PackLength(Values(SkipBreaks(s)).value);
    }
    if Decode(s).Some? {
      SplitPack(Values(SkipBreaks(s)).value);
      PackSplit(Decode(s).value);
    }
  }
}
