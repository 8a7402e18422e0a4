/** Base64URL without padding (RFC 4648 sections 5 and 3.5), as login QR codes and digest references carry it. */
module Base64Url {
  import opened Prelude

  type Byte = x: int | 0 <= x < 256

  type Sextet = x: int | 0 <= x < 64

  const PREFIX := "safebox-card:v1:"
  const MAX_BYTES := 400
  const MAX_BODY := 534
  const BAD_SIZE := "Invalid login QR size"
  const BAD_FORMAT := "Invalid login QR format"
  const BAD_ENCODING := "Invalid login QR encoding"
  const NOT_CANONICAL := "The digest must use canonical unpadded Base64URL encoding."

  predicate InAlphabet(c: char) {
    'A' <= c <= 'Z' || 'a' <= c <= 'z' || '0' <= c <= '9' || c == '-' || c == '_'
  }

  function CharOf(x: Sextet): (c: char)
    ensures InAlphabet(c)
  {
    if x < 26 then (x + 'A' as int) as char
    else if x < 52 then (x - 26 + 'a' as int) as char
    else if x < 62 then (x - 52 + '0' as int) as char
    else if x == 62 then '-' else '_'
  }

  function SextetOf(c: char): Sextet
    requires InAlphabet(c)
  {
    if 'A' <= c <= 'Z' then c as int - 'A' as int
    else if 'a' <= c <= 'z' then c as int - 'a' as int + 26
    else if '0' <= c <= '9' then c as int - '0' as int + 52
    else if c == '-' then 62 else 63
  }

  lemma Alphabet(c: char, x: Sextet)
    ensures SextetOf(CharOf(x)) == x
    ensures InAlphabet(c) ==> CharOf(SextetOf(c)) == c
  {
  }

  /** The alphabet of RFC 4648, section 5. */
  lemma AlphabetIs(x: Sextet)
    ensures x < 26 ==> CharOf(x) == "ABCDEFGHIJKLMNOPQRSTUVWXYZ"[x]
    ensures 26 <= x < 52 ==> CharOf(x) == "abcdefghijklmnopqrstuvwxyz"[x - 26]
    ensures 52 <= x ==> CharOf(x) == "0123456789-_"[x - 52]
  {
  }

  // The sextets of three bytes, and the bytes of four sextets.

  function First(a: Byte): Sextet { a / 4 }

  function Second(a: Byte, b: Byte): Sextet { LowBits(a, 4, 16) + b / 16 }

  function Third(b: Byte, c: Byte): Sextet { LowBits(b, 16, 4) + c / 64 }

  function Fourth(c: Byte): Sextet { c % 64 }

  /** The low bits of a number below `n`, moved up by `shift`. */
  function LowBits(x: int, n: int, shift: int): (r: int)
    requires n > 0 && shift > 0
    ensures n == 4 && shift == 16 ==> 0 <= r <= 48
    ensures n == 16 && shift == 4 ==> 0 <= r <= 60
    ensures n == 16 && shift == 16 ==> 0 <= r <= 240
    ensures n == 4 && shift == 64 ==> 0 <= r <= 192
  {
    var low: int := x % n;
    low * shift
  }

  function ByteA(s: Sextet, t: Sextet): Byte { Join(4 * s, t / 16) }

  function ByteB(t: Sextet, u: Sextet): Byte { Join(LowBits(t, 16, 16), u / 4) }

  function ByteC(u: Sextet, v: Sextet): Byte { Join(LowBits(u, 4, 64), v) }

  function Join(high: int, low: int): int { high + low }

  lemma BytesOfSextets(a: Byte, b: Byte, c: Byte)
    ensures ByteA(First(a), Second(a, b)) == a && ByteB(Second(a, b), Third(b, c)) == b && ByteC(Third(b, c), Fourth(c)) == c
  {
  }

  lemma SextetsOfBytes(s: Sextet, t: Sextet, u: Sextet, v: Sextet)
    ensures First(ByteA(s, t)) == s && Second(ByteA(s, t), ByteB(t, u)) == t
    ensures Third(ByteB(t, u), ByteC(u, v)) == u && Fourth(ByteC(u, v)) == v
    ensures Second(ByteA(s, t), 0) == t <==> t % 16 == 0
    ensures Third(ByteB(t, u), 0) == u <==> u % 4 == 0
  {
  }

  /** Three bytes make four sextets; one or two left over make two or three, padded with zero bits. */
  function Pack(p: seq<Byte>): seq<Sextet> {
    if p == [] then []
    else if |p| == 1 then [First(p[0]), Second(p[0], 0)]
    else if |p| == 2 then [First(p[0]), Second(p[0], p[1]), Third(p[1], 0)]
    else [First(p[0]), Second(p[0], p[1]), Third(p[1], p[2]), Fourth(p[2])] + Pack(p[3..])
  }

  /** The bytes of a group of sextets; bits that make no whole byte are dropped. */
  function Unpack(s: seq<Sextet>): seq<Byte> {
    if |s| < 2 then []
    else if |s| == 2 then [ByteA(s[0], s[1])]
    else if |s| == 3 then [ByteA(s[0], s[1]), ByteB(s[1], s[2])]
    else [ByteA(s[0], s[1]), ByteB(s[1], s[2]), ByteC(s[2], s[3])] + Unpack(s[4..])
  }

  /** No lone sextet at the end, and no bits beyond the last whole byte. */
  predicate Canonical(s: seq<Sextet>) {
    match |s| % 4
    case 0 => true
    case 1 => false
    case 2 => s[|s| - 1] % 16 == 0
    case _ => s[|s| - 1] % 4 == 0
  }

  lemma {:induction false} PackLength(p: seq<Byte>)
    ensures 4 * |p| <= 3 * |Pack(p)| <= 4 * |p| + 2 && |Pack(p)| % 4 != 1
  {
    hide First, Second, Third, Fourth;
    if |p| >= 3 { PackLength(p[3..]); }
  }

  lemma {:induction false} UnpackLength(s: seq<Sextet>)
    ensures 3 * |s| - 3 <= 4 * |Unpack(s)| <= 3 * |s|
  {
    hide ByteA, ByteB, ByteC;
    if |s| >= 4 { UnpackLength(s[4..]); }
  }

  lemma PackGroup(p: seq<Byte>)
    requires |p| >= 3
    ensures |Pack(p)| >= 4 && Pack(p)[4..] == Pack(p[3..])
    ensures Pack(p)[..4] == [First(p[0]), Second(p[0], p[1]), Third(p[1], p[2]), Fourth(p[2])]
  {
    hide First, Second, Third, Fourth;
  }

  lemma UnpackGroup(s: seq<Sextet>)
    requires |s| >= 4
    ensures |Unpack(s)| >= 3 && Unpack(s)[3..] == Unpack(s[4..])
    ensures Unpack(s)[..3] == [ByteA(s[0], s[1]), ByteB(s[1], s[2]), ByteC(s[2], s[3])]
  {
    hide ByteA, ByteB, ByteC;
  }

  lemma PackShort(a: Byte, b: Byte)
    ensures Pack([]) == [] && Pack([a]) == [First(a), Second(a, 0)] && Pack([a, b]) == [First(a), Second(a, b), Third(b, 0)]
  {
    hide First, Second, Third;
  }

  lemma UnpackShort(s: Sextet, t: Sextet, u: Sextet)
    ensures Unpack([]) == [] && Unpack([s]) == [] && Unpack([s, t]) == [ByteA(s, t)] && Unpack([s, t, u]) == [ByteA(s, t), ByteB(t, u)]
  {
    hide ByteA, ByteB;
  }

  lemma {:induction false} ShortPack(p: seq<Byte>)
    requires |p| < 3
    ensures Unpack(Pack(p)) == p
  {
    hide Pack, Unpack, First, Second, Third, Fourth, ByteA, ByteB, ByteC;
    if |p| == 0 {
      PackShort(0, 0);
      UnpackShort(0, 0, 0);
      assert p == [];
    } else if |p| == 1 {
      PackShort(p[0], 0);
      BytesOfSextets(p[0], 0, 0);
      UnpackShort(First(p[0]), Second(p[0], 0), 0);
      assert p == [p[0]];
    } else {
      PackShort(p[0], p[1]);
      BytesOfSextets(p[0], p[1], 0);
      UnpackShort(First(p[0]), Second(p[0], p[1]), Third(p[1], 0));
      assert p == [p[0], p[1]];
    }
  }

  lemma {:induction false} PackThenUnpack(p: seq<Byte>)
    ensures Unpack(Pack(p)) == p
  {
    if |p| < 3 {
      ShortPack(p);
    } else {
      PackThenUnpack(p[3..]);
      PackGroup(p);
      UnpackGroup(Pack(p));
      BytesOfSextets(p[0], p[1], p[2]);
      hide Pack, Unpack, First, Second, Third, Fourth, ByteA, ByteB, ByteC;
      var s := Pack(p);
      assert s[0] == s[..4][0] && s[1] == s[..4][1] && s[2] == s[..4][2] && s[3] == s[..4][3];
      assert Unpack(s) == Unpack(s)[..3] + Unpack(s)[3..];
      assert p == [p[0], p[1], p[2]] + p[3..];
    }
  }

  /** One more digit at the end of a number. */
  function Digit(high: int, base: int, low: int): int { high * base + low }

  /** Four sextets hold the 24 bits of three bytes, in order. */
  lemma SameBits(a: Byte, b: Byte, c: Byte)
    ensures Digit(Digit(Digit(First(a), 64, Second(a, b)), 64, Third(b, c)), 64, Fourth(c)) == Digit(Digit(a, 256, b), 256, c)
    ensures Digit(Digit(First(a), 64, Second(a, b)), 64, Third(b, 0)) == Digit(a, 256, b) * 4
    ensures Digit(First(a), 64, Second(a, 0)) == Digit(a, 16, 0)
  {
    var q, r := b / 16, b % 16;
    assert b == 16 * q + r && a == 4 * (a / 4) + a % 4 && c == 64 * (c / 64) + c % 64;
  }

  /** Every group of a packed text is the number its bytes make, and what is left over is filled up with zero bits. */
  lemma {:induction false} PackedBits(p: seq<Byte>, i: nat)
    requires 3 * i < |p|
    ensures |Pack(p)| == (4 * |p| + 2) / 3
    ensures var s := Pack(p);
            if 3 * i + 2 < |p| then
              Digit(Digit(Digit(s[4 * i], 64, s[4 * i + 1]), 64, s[4 * i + 2]), 64, s[4 * i + 3])
              == Digit(Digit(p[3 * i], 256, p[3 * i + 1]), 256, p[3 * i + 2])
            else if 3 * i + 1 < |p| then
              Digit(Digit(s[4 * i], 64, s[4 * i + 1]), 64, s[4 * i + 2]) == Digit(p[3 * i], 256, p[3 * i + 1]) * 4
            else
              Digit(s[4 * i], 64, s[4 * i + 1]) == Digit(p[3 * i], 16, 0)
    decreases |p|
  {
    SameBits(p[0], if |p| > 1 then p[1] else 0, if |p| > 2 then p[2] else 0);
    hide First, Second, Third, Fourth, Digit;
    if |p| >= 3 {
      var s, q := Pack(p), p[3..];
      PackGroup(p);
      assert s == s[..4] + Pack(q);
      if q != [] { PackedBits(q, if i > 0 then i - 1 else 0); }
    }
  }

  lemma CanonicalShort(s: Sextet, t: Sextet, u: Sextet)
    ensures Canonical([]) && !Canonical([s]) && (Canonical([s, t]) <==> t % 16 == 0) && (Canonical([s, t, u]) <==> u % 4 == 0)
  {
  }

  lemma TwoSextets(s: Sextet, t: Sextet)
    ensures Pack(Unpack([s, t])) == [s, t] <==> Canonical([s, t])
  {
    SextetsOfBytes(s, t, 0, 0);
    UnpackShort(s, t, 0);
    PackShort(ByteA(s, t), 0);
    CanonicalShort(s, t, 0);
    hide *;
  }

  lemma ThreeSextets(s: Sextet, t: Sextet, u: Sextet)
    ensures Pack(Unpack([s, t, u])) == [s, t, u] <==> Canonical([s, t, u])
  {
    SextetsOfBytes(s, t, u, 0);
    UnpackShort(s, t, u);
    PackShort(ByteA(s, t), ByteB(t, u));
    CanonicalShort(s, t, u);
    hide *;
  }

  lemma {:induction false} ShortUnpack(s: seq<Sextet>)
    requires |s| < 4
    ensures Pack(Unpack(s)) == s <==> Canonical(s)
  {
    hide *;
    if |s| == 0 {
      UnpackShort(0, 0, 0);
      PackShort(0, 0);
      CanonicalShort(0, 0, 0);
      assert s == [];
    } else if |s| == 1 {
      UnpackShort(s[0], 0, 0);
      PackShort(0, 0);
      CanonicalShort(s[0], 0, 0);
      assert s == [s[0]];
    } else if |s| == 2 {
      TwoSextets(s[0], s[1]);
      assert s == [s[0], s[1]];
    } else {
      ThreeSextets(s[0], s[1], s[2]);
      assert s == [s[0], s[1], s[2]];
    }
  }

  lemma CanonicalTail(s: seq<Sextet>)
    requires |s| >= 4
    ensures Canonical(s) <==> Canonical(s[4..])
  {
  }

  lemma {:induction false} UnpackThenPack(s: seq<Sextet>)
    ensures Pack(Unpack(s)) == s <==> Canonical(s)
  {
    hide Pack, Unpack, First, Second, Third, Fourth, ByteA, ByteB, ByteC, Canonical;
    if |s| < 4 {
      ShortUnpack(s);
    } else {
      UnpackThenPack(s[4..]);
      UnpackGroup(s);
      CanonicalTail(s);
      var p := Unpack(s);
      PackGroup(p);
      SextetsOfBytes(s[0], s[1], s[2], s[3]);
      FirstThree(p, ByteA(s[0], s[1]), ByteB(s[1], s[2]), ByteC(s[2], s[3]));
      assert Pack(p) == Pack(p)[..4] + Pack(p)[4..];
      assert s == [s[0], s[1], s[2], s[3]] + s[4..];
      assert Pack(p) == s ==> Pack(p)[4..] == s[4..];
    }
  }

  lemma FirstThree(p: seq<Byte>, a: Byte, b: Byte, c: Byte)
    requires |p| >= 3 && p[..3] == [a, b, c]
    ensures p[0] == a && p[1] == b && p[2] == c
  {
    assert p[0] == p[..3][0] && p[1] == p[..3][1] && p[2] == p[..3][2];
  }

  // ---- as text ----

  function Write(s: seq<Sextet>): string { seq(|s|, i requires 0 <= i < |s| => CharOf(s[i])) }

  predicate Readable(body: string) { forall i :: 0 <= i < |body| ==> InAlphabet(body[i]) }

  function ReadBody(body: string): seq<Sextet>
    requires Readable(body)
  {
    seq(|body|, i requires 0 <= i < |body| => SextetOf(body[i]))
  }

  lemma WriteThenRead(s: seq<Sextet>)
    ensures Readable(Write(s)) && ReadBody(Write(s)) == s
  {
    forall i | 0 <= i < |s|
      ensures SextetOf(Write(s)[i]) == s[i]
    {
      Alphabet('A', s[i]);
    }
  }

  lemma ReadThenWrite(body: string)
    requires Readable(body)
    ensures Write(ReadBody(body)) == body
  {
    forall i | 0 <= i < |body|
      ensures CharOf(SextetOf(body[i])) == body[i]
    {
      Alphabet(body[i], 0);
    }
  }

  /** `encode` */
  function Encode(payload: seq<Byte>): Result<string> {
    if !(1 <= |payload| <= MAX_BYTES) then Err(BAD_SIZE) else Ok(PREFIX + Write(Pack(payload)))
  }

  predicate HasPrefix(value: string) { |PREFIX| <= |value| && value[..|PREFIX|] == PREFIX }

  /** `decode`: read leniently, then insist that writing gives the same text. */
  function Decode(value: string): Result<seq<Byte>> {
    if !HasPrefix(value) || |value| > |PREFIX| + MAX_BODY then Err(BAD_FORMAT)
    else
      var body := value[|PREFIX|..];
      if body == "" || !Readable(body) || |body| % 4 == 1 then Err(BAD_ENCODING)
      else
        var payload := Unpack(ReadBody(body));
        if Encode(payload) != Ok(value) then Err(BAD_ENCODING) else Ok(payload)
  }

  /** What is shown as a QR code is read back. */
  lemma {:induction false} DecodeEncoded(payload: seq<Byte>)
    requires 1 <= |payload| <= 400
    ensures Encode(payload).Ok? && Decode(Encode(payload).value) == Ok(payload)
  {
    var body := Write(Pack(payload));
    var value := PREFIX + body;
    PackThenUnpack(payload);
    PackLength(payload);
    WriteThenRead(Pack(payload));
    hide Pack, Unpack, Readable, ReadBody;
    WrittenAfterPrefix(Pack(payload));
  }

  lemma WrittenAfterPrefix(s: seq<Sextet>)
    ensures var value := PREFIX + Write(s); HasPrefix(value) && value[|PREFIX|..] == Write(s) && |value| == |PREFIX| + |s|
  {
    hide CharOf;
    var body := Write(s);
    assert (PREFIX + body)[..|PREFIX|] == PREFIX && (PREFIX + body)[|PREFIX|..] == body;
  }

  /** Every accepted text is the one encoding of its bytes. */
  lemma AcceptedIsEncoded(value: string)
    ensures Decode(value).Ok? ==> 1 <= |Decode(value).value| <= 400 && Encode(Decode(value).value) == Ok(value)
  {
    hide Pack, Unpack;
  }

  /** Two texts that decode to the same bytes are the same text. */
  lemma DecodeIsInjective(v: string, w: string)
    ensures Decode(v).Ok? && Decode(v) == Decode(w) ==> v == w
  {
    AcceptedIsEncoded(v);
    AcceptedIsEncoded(w);
    hide Decode, Encode;
  }

  /** Which texts are accepted, without decoding them: prefix, alphabet, length, and no stray bits. */
  lemma AcceptedIffCanonical(value: string)
    ensures Decode(value).Ok? <==>
            && 16 <= |value| && value[..16] == "safebox-card:v1:"
            && var body := value[16..]; 1 <= |body| <= 534 && Readable(body) && Canonical(ReadBody(body))
  {
    if HasPrefix(value) && |value| <= |PREFIX| + MAX_BODY {
      var body := value[|PREFIX|..];
      assert value == PREFIX + body;
      if body != "" && Readable(body) {
        var s := ReadBody(body);
        UnpackThenPack(s);
        UnpackLength(s);
        ReadThenWrite(body);
        WriteThenRead(Pack(Unpack(s)));
        assert Pack(Unpack(s)) == s <==> Write(Pack(Unpack(s))) == body;
        assert PREFIX + Write(Pack(Unpack(s))) == value <==> Write(Pack(Unpack(s))) == body by {
          assert (PREFIX + Write(Pack(Unpack(s))))[|PREFIX|..] == Write(Pack(Unpack(s)));
        }
        assert |s| % 4 == 1 ==> !Canonical(s);
        hide Pack, Unpack, Write, ReadBody;
      }
    }
  }

  // ---- digest references ----

  /** A 43-character reference to a SHA-256 digest. */
  function DigestOf(reference: string): Result<seq<Byte>>
    requires |reference| == 43 && Readable(reference)
  {
    var raw := Unpack(ReadBody(reference));
    if Write(Pack(raw)) != reference then Err(NOT_CANONICAL) else Ok(raw)
  }

  /** It is accepted exactly when its last character has no stray bits, and then names 32 bytes as no other reference does. */
  lemma {:induction false} DigestIffCanonical(reference: string)
    requires |reference| == 43 && Readable(reference)
    ensures DigestOf(reference).Ok? <==> SextetOf(reference[42]) % 4 == 0
    ensures DigestOf(reference).Ok? ==> |DigestOf(reference).value| == 32 && Write(Pack(DigestOf(reference).value)) == reference
  {
    var s := ReadBody(reference);
    UnpackThenPack(s);
    UnpackLength(s);
    ReadThenWrite(reference);
    WriteThenRead(Pack(Unpack(s)));
    assert Canonical(s) <==> s[42] % 4 == 0;
    hide Pack, Unpack;
  }

  /** Every 32-byte digest has such a reference. */
  lemma {:induction false} EveryDigestHasAReference(raw: seq<Byte>)
    requires |raw| == 32
    ensures |Write(Pack(raw))| == 43 && Readable(Write(Pack(raw))) && DigestOf(Write(Pack(raw))) == Ok(raw)
  {
    PackThenUnpack(raw);
    PackLength(raw);
    WriteThenRead(Pack(raw));
    hide Pack, Unpack;
  }
}
