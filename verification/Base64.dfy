/** Standard base64, padded (sections 3.5 and 4 of RFC 4648). (crates/core/src/base64.rs)
    A text is taken one character per byte. */
module Base64 {
  import opened Wrappers

  type Byte = n: int | 0 <= n < 256

  type Sextet = n: int | 0 <= n < 64

  datatype Error = BadLength(n: nat) | Misplaced | BadChar(c: char)

  datatype Result<+T> = Ok(value: T) | Err(error: Error)

  const UPPER := "ABCDEFGHIJKLMNOPQRSTUVWXYZ"
  const LOWER := "abcdefghijklmnopqrstuvwxyz"
  const DIGITS := "0123456789"
  const ALPHABET := UPPER + LOWER + DIGITS + "+/"

  /** A character's six bits. */
  function ValueOf(c: char): Option<Sextet> {
    if 'A' <= c <= 'Z' then Some(c as int - 'A' as int)
    else if 'a' <= c <= 'z' then Some(c as int - 'a' as int + 26)
    else if '0' <= c <= '9' then Some(c as int - '0' as int + 52)
    else if c == '+' then Some(62)
    else if c == '/' then Some(63)
    else None
  }

  /** The alphabet's character of six bits, by its ranges. */
  function CharOf(v: Sextet): char {
    if v < 26 then ('A' as int + v) as char
    else if v < 52 then ('a' as int + v - 26) as char
    else if v < 62 then ('0' as int + v - 52) as char
    else if v == 62 then '+'
    else '/'
  }

  lemma TableIsRanges(v: Sextet)
    ensures ALPHABET[v] == CharOf(v)
  {}

  /** The two tables are inverse. */
  lemma TablesInverse(v: Sextet, c: char)
    ensures ValueOf(CharOf(v)) == Some(v) && CharOf(v) != '='
    ensures ValueOf(c).Some? ==> CharOf(ValueOf(c).value) == c
  {}

  // ---- encoding ----------------------------------------------------------------------------------

  function Least(a: nat, b: nat): nat {
    if a <= b then a else b
  }

  /** Up to three bytes as one number of 24 bits, the missing ones zero. */
  function Joined(chunk: seq<Byte>): (n: nat)
    requires 1 <= |chunk| <= 3
    ensures n < 0x100_0000
  {
    (chunk[0] as int) * 0x1_0000 + (if |chunk| > 1 then (chunk[1] as int) * 0x100 else 0)
        + (if |chunk| > 2 then chunk[2] as int else 0)
  }

  /** `(n >> (18 - 6 * i)) & 63`. */
  function SextetAt(n: nat, i: nat): Sextet
    requires i < 4
  {
    (if i == 0 then n / 0x4_0000 else if i == 1 then n / 0x1000 else if i == 2 then n / 0x40 else n) % 64
  }

  /** The four characters of a chunk; past its data, padding. */
  function QuadOf(chunk: seq<Byte>): (q: string)
    requires 1 <= |chunk| <= 3
    ensures |q| == 4
  {
    seq(4, i requires 0 <= i < 4 => if i <= |chunk| then CharOf(SextetAt(Joined(chunk), i)) else '=')
  }

  function Encoded(bytes: seq<Byte>): string {
    if bytes == [] then ""
    else
      var k := Least(3, |bytes|);
      QuadOf(bytes[..k]) + Encoded(bytes[k..])
  }

  lemma EncodedOn(bytes: seq<Byte>, at: nat, end: nat, out: string)
    requires at < |bytes| && end == at + Least(3, |bytes| - at)
    ensures out + Encoded(bytes[at..]) == out + QuadOf(bytes[at..end]) + Encoded(bytes[end..])
  {
    assert bytes[at..][..end - at] == bytes[at..end] && bytes[at..][end - at..] == bytes[end..];
    assert Encoded(bytes[at..]) == QuadOf(bytes[at..end]) + Encoded(bytes[end..]);
  }

  method Encode(bytes: seq<Byte>) returns (out: string)
    ensures out == Encoded(bytes)
  {
    out := "";
    var at := 0;
    while at < |bytes|
      invariant at <= |bytes| && out + Encoded(bytes[at..]) == Encoded(bytes)
    {
      var end := at + Least(3, |bytes| - at);
      EncodedOn(bytes, at, end, out);
      out := PushQuad(out, bytes[at..end]);
      at := end;
    }
    assert bytes[at..] == [] && out + "" == out;
  }

  method PushQuad(before: string, chunk: seq<Byte>) returns (out: string)
    requires 1 <= |chunk| <= 3
    ensures out == before + QuadOf(chunk)
  {
    var n := Joined(chunk);
    out := before;
    for i := 0 to 4
      invariant out == before + QuadOf(chunk)[..i]
    {
      assert QuadOf(chunk)[..i + 1] == QuadOf(chunk)[..i] + [QuadOf(chunk)[i]];
      if i <= |chunk| {
        TableIsRanges(SextetAt(n, i));
        out := out + [ALPHABET[SextetAt(n, i)]];
      } else {
        out := out + "=";
      }
    }
    assert QuadOf(chunk)[..4] == QuadOf(chunk);
  }

  // ---- decoding ----------------------------------------------------------------------------------

  /** How many `=` a text ends in. */
  function PadOf(s: string): (n: nat)
    ensures n <= |s|
  {
    if s == "" || s[|s| - 1] != '=' then 0 else PadOf(s[..|s| - 1]) + 1
  }

  lemma {:induction false} PadFacts(s: string)
    ensures var n := PadOf(s); (forall i | |s| - n <= i < |s| :: s[i] == '=') && (n < |s| ==> s[|s| - n - 1] != '=')
  {
    if s != "" && s[|s| - 1] == '=' {
      PadFacts(s[..|s| - 1]);
    }
  }

  /** The number the characters stand for, six bits each; none with one outside the alphabet. */
  function ValueOfAll(s: string): Result<nat> {
    if s == "" then Ok(0)
    else
      var k := |s| - 1;
      match ValueOfAll(s[..k])
      case Err(e) => Err(e)
      case Ok(n) => if ValueOf(s[k]).Some? then Ok(n * 64 + ValueOf(s[k]).value) else Err(BadChar(s[k]))
  }

  lemma {:induction false} ValuesOk(s: string)
    ensures ValueOfAll(s).Ok? <==> forall c | c in s :: ValueOf(c).Some?
  {
    if s != "" {
      ValuesOk(s[..|s| - 1]);
      assert s == s[..|s| - 1] + [s[|s| - 1]];
    }
  }

  function Shifted(n: nat, pad: nat): nat {
    if pad == 0 then n else if pad == 1 then n * 64 else n * 64 * 64
  }

  function BytesOf(n: nat): seq<Byte> {
    [n / 0x1_0000 % 256, n / 0x100 % 256, n % 256]
  }

  /** A quad whose last `pad` characters are its padding. */
  function DecodePadded(quad: string, pad: nat, last: bool): Result<seq<Byte>>
    requires |quad| == 4
  {
    if pad > 2 || (pad > 0 && !last) then Err(Misplaced)
    else
      match ValueOfAll(quad[..4 - pad])
      case Err(e) => Err(e)
      case Ok(n) => Ok(BytesOf(Shifted(n, pad))[..3 - pad])
  }

  function DecodeQuad(quad: string, last: bool): Result<seq<Byte>>
    requires |quad| == 4
  {
    DecodePadded(quad, PadOf(quad), last)
  }

  function Prepend(b: seq<Byte>, r: Result<seq<Byte>>): Result<seq<Byte>> {
    if r.Ok? then Ok(b + r.value) else r
  }

  function DecodeQuads(s: string): Result<seq<Byte>>
    requires |s| % 4 == 0
  {
    if s == "" then Ok([])
    else
      match DecodeQuad(s[..4], |s| == 4)
      case Err(e) => Err(e)
      case Ok(b) => Prepend(b, DecodeQuads(s[4..]))
  }

  function Decoded(s: string): Result<seq<Byte>> {
    if |s| % 4 != 0 then Err(BadLength(|s|)) else DecodeQuads(s)
  }

  lemma PrependNothing(r: Result<seq<Byte>>)
    ensures Prepend([], r) == r
  {
    if r.Ok? {
      assert [] + r.value == r.value;
    }
  }

  lemma PrependMore(a: seq<Byte>, b: seq<Byte>, r: Result<seq<Byte>>)
    ensures Prepend(a, Prepend(b, r)) == Prepend(a + b, r)
  {
    if r.Ok? {
      assert a + (b + r.value) == a + b + r.value;
    }
  }

  lemma QuadsFrom(text: string, q: nat)
    requires |text| % 4 == 0 && 4 * q < |text|
    ensures var r := DecodeQuad(text[4 * q..4 * q + 4], q + 1 == |text| / 4);
            DecodeQuads(text[4 * q..]) == if r.Ok? then Prepend(r.value, DecodeQuads(text[4 * (q + 1)..])) else r
  {
    assert text[4 * q..][..4] == text[4 * q..4 * q + 4] && text[4 * q..][4..] == text[4 * (q + 1)..];
  }

  method Decode(text: string) returns (r: Result<seq<Byte>>)
    ensures r == Decoded(text)
  {
    if |text| % 4 != 0 {
      return Err(BadLength(|text|));
    }
    var out: seq<Byte> := [];
    var quads := |text| / 4;
    assert text[4 * 0..] == text;
    PrependNothing(DecodeQuads(text));
    for q := 0 to quads
      invariant Prepend(out, DecodeQuads(text[4 * q..])) == Decoded(text)
    {
      QuadsFrom(text, q);
      var b := ReadQuad(text[4 * q..4 * q + 4], q + 1 == quads);
      if b.Err? {
        return b;
      }
      PrependMore(out, b.value, DecodeQuads(text[4 * (q + 1)..]));
      out := out + b.value;
    }
    assert out + [] == out;
    r := Ok(out);
  }

  method ReadQuad(quad: string, last: bool) returns (r: Result<seq<Byte>>)
    requires |quad| == 4
    ensures r == DecodeQuad(quad, last)
  {
    var pad := PadOf(quad);
    if pad > 2 || (pad > 0 && !last) {
      return Err(Misplaced);
    }
    var n: nat := 0;
    var data := quad[..4 - pad];
    for i := 0 to |data|
      invariant ValueOfAll(data[..i]) == Ok(n)
    {
      assert data[..i + 1][..i] == data[..i];
      var v := ValueOf(data[i]);
      if v.None? {
        FirstBad(data, i);
        return Err(BadChar(data[i]));
      }
      n := n * 64 + v.value;
    }
    assert data[..|data|] == data;
    n := Shifted(n, pad);
    r := Ok(BytesOf(n)[..3 - pad]);
  }

  lemma {:induction false} FirstBad(s: string, i: nat)
    requires i < |s| && ValueOf(s[i]).None? && ValueOfAll(s[..i]).Ok?
    ensures ValueOfAll(s) == Err(BadChar(s[i]))
    decreases |s|
  {
    if i < |s| - 1 {
      assert s[..|s| - 1][..i] == s[..i];
      FirstBad(s[..|s| - 1], i);
    }
  }

  // ---- the bits -----------------------------------------------------------------------------------

  /** Three bytes are four sextets. */
  lemma Sextets(a: Sextet, b: Sextet, c: Sextet, d: Sextet)
    ensures var n := ((a * 64 + b) * 64 + c) * 64 + d;
            n < 0x100_0000 && SextetAt(n, 0) == a && SextetAt(n, 1) == b && SextetAt(n, 2) == c && SextetAt(n, 3) == d
  {}

  lemma SextetsRejoined(n: nat)
    requires n < 0x100_0000
    ensures ((SextetAt(n, 0) * 64 + SextetAt(n, 1)) * 64 + SextetAt(n, 2)) * 64 + SextetAt(n, 3) == n
  {
    var q1 := n / 64;
    var q2 := q1 / 64;
    var q3 := q2 / 64;
    assert n / 0x1000 == q2 && n / 0x4_0000 == q3;
  }

  lemma BytesRejoined(n: nat)
    requires n < 0x100_0000
    ensures Joined(BytesOf(n)) == n
    ensures Joined(BytesOf(n)[..2]) == n - n % 0x100
    ensures Joined(BytesOf(n)[..1]) == n - n % 0x1_0000
  {
    var q1 := n / 0x100;
    assert n / 0x1_0000 == q1 / 0x100;
  }

  lemma Unjoined(chunk: seq<Byte>)
    requires 1 <= |chunk| <= 3
    ensures BytesOf(Joined(chunk))[..|chunk|] == chunk
    ensures |chunk| == 2 ==> Joined(chunk) % 0x100 == 0
    ensures |chunk| == 1 ==> Joined(chunk) % 0x1_0000 == 0
  {
    var a, b, c := chunk[0], if |chunk| > 1 then chunk[1] else 0, if |chunk| > 2 then chunk[2] else 0;
    assert Joined(chunk) == a as int * 0x1_0000 + b as int * 0x100 + c as int;
    BytesOfParts(a, b, c);
    assert chunk == [a, b, c][..|chunk|];
  }

  lemma BytesOfParts(a: Byte, b: Byte, c: Byte)
    ensures BytesOf(a as int * 0x1_0000 + b as int * 0x100 + c as int) == [a, b, c]
  {
    var n: int := a as int * 0x1_0000 + b as int * 0x100 + c as int;
    assert n / 0x1_0000 == a as int && n / 0x100 == a as int * 0x100 + b as int && n % 256 == c as int;
  }

  // ---- one quad -----------------------------------------------------------------------------------

  lemma PadIs(s: string, pad: nat)
    requires pad < |s| && (forall i | |s| - pad <= i < |s| :: s[i] == '=') && s[|s| - pad - 1] != '='
    ensures PadOf(s) == pad
  {
    PadFacts(s);
    var n := PadOf(s);
    assert n < |s| ==> s[|s| - n - 1] != '=';
  }

  lemma ValueMore(s: string, c: char)
    requires ValueOfAll(s).Ok? && ValueOf(c).Some?
    ensures ValueOfAll(s + [c]) == Ok(ValueOfAll(s).value * 64 + ValueOf(c).value)
  {
    assert (s + [c])[..|s|] == s;
  }

  /** The data characters of a quad, and zeros for its padding, as one number. */
  function Number(a: Sextet, b: Sextet, c: Sextet, d: Sextet): nat {
    (((a as int) * 64 + b) * 64 + c) * 64 + d
  }

  lemma TwoValues(x: char, y: char)
    requires ValueOf(x).Some? && ValueOf(y).Some?
    ensures ValueOfAll([x, y]) == Ok(ValueOf(x).value as int * 64 + ValueOf(y).value)
  {
    assert ValueOfAll("") == Ok(0);
    ValueMore("", x);
    assert "" + [x] == [x] && [x] + [y] == [x, y];
    ValueMore([x], y);
  }

  lemma ThreeValues(x: char, y: char, z: char)
    requires ValueOf(x).Some? && ValueOf(y).Some? && ValueOf(z).Some?
    ensures ValueOfAll([x, y, z]) == Ok((ValueOf(x).value as int * 64 + ValueOf(y).value) * 64 + ValueOf(z).value)
  {
    TwoValues(x, y);
    assert [x, y] + [z] == [x, y, z];
    ValueMore([x, y], z);
  }

  /** What the data of a quad stand for. */
  lemma NumberOfData(data: string, a: Sextet, b: Sextet, c: Sextet, d: Sextet)
    requires 2 <= |data| <= 4 && ValueOf(data[0]) == Some(a) && ValueOf(data[1]) == Some(b)
    requires if |data| > 2 then ValueOf(data[2]) == Some(c) else c == 0
    requires if |data| > 3 then ValueOf(data[3]) == Some(d) else d == 0
    ensures ValueOfAll(data).Ok? && Shifted(ValueOfAll(data).value, 4 - |data|) == Number(a, b, c, d)
  {
    if |data| == 2 {
      TwoValues(data[0], data[1]);
      assert data == [data[0], data[1]];
    } else {
      ThreeValues(data[0], data[1], data[2]);
      var three := [data[0], data[1], data[2]];
      if |data| == 3 {
        assert data == three;
      } else {
        ValueMore(three, data[3]);
        assert data == three + [data[3]];
      }
    }
  }

  lemma PadOfQuad(chunk: seq<Byte>)
    requires 1 <= |chunk| <= 3
    ensures PadOf(QuadOf(chunk)) == 3 - |chunk|
  {
    var q := QuadOf(chunk);
    TablesInverse(SextetAt(Joined(chunk), |chunk|), '=');
    assert q[|chunk|] != '=';
    PadIs(q, 3 - |chunk|);
  }

  lemma TailIsZero(n: nat)
    ensures n % 0x100 == 0 ==> SextetAt(n, 3) == 0
    ensures n % 0x1_0000 == 0 ==> SextetAt(n, 3) == 0 && SextetAt(n, 2) == 0
  {
    if n % 0x100 == 0 {
      var m := n / 0x100;
      assert n == 64 * (4 * m);
    }
    if n % 0x1_0000 == 0 {
      var m := n / 0x1_0000;
      assert n == 64 * (1024 * m) && n / 64 == 64 * (16 * m);
    }
  }

  /** The data characters of an encoded chunk stand for its bytes. */
  lemma NumberOfChunk(chunk: seq<Byte>)
    requires 1 <= |chunk| <= 3
    ensures var data := QuadOf(chunk)[..|chunk| + 1];
            ValueOfAll(data).Ok? && Shifted(ValueOfAll(data).value, 3 - |chunk|) == Joined(chunk)
  {
    var n, q := Joined(chunk), QuadOf(chunk);
    var a, b, c, d := SextetAt(n, 0), SextetAt(n, 1), SextetAt(n, 2), SextetAt(n, 3);
    TablesInverse(a, '=');
    TablesInverse(b, '=');
    TablesInverse(c, '=');
    TablesInverse(d, '=');
    Unjoined(chunk);
    TailIsZero(n);
    NumberOfData(q[..|chunk| + 1], a, b, c, d);
    SextetsRejoined(n);
  }

  lemma QuadRoundTrip(chunk: seq<Byte>, last: bool)
    requires 1 <= |chunk| <= 3 && (|chunk| == 3 || last)
    ensures DecodeQuad(QuadOf(chunk), last) == Ok(chunk)
  {
    PadOfQuad(chunk);
    NumberOfChunk(chunk);
    Unjoined(chunk);
  }

  /** The bits of the last data character, before `pad` paddings, that no byte takes. */
  function DiscardedAt(s: string, pad: nat): nat {
    if pad == 1 && |s| > 1 then SextetOf(s[|s| - 2]) % 4
    else if pad == 2 && |s| > 2 then SextetOf(s[|s| - 3]) % 16
    else 0
  }

  function SextetOf(c: char): Sextet {
    if ValueOf(c).Some? then ValueOf(c).value else 0
  }

  lemma Remainder(high: int, low: int)
    ensures 0 <= low < 0x100 ==> (high * 0x100 + low) % 0x100 == low
    ensures 0 <= low < 0x1_0000 ==> (high * 0x1_0000 + low) % 0x1_0000 == low
  {}

  /** Without the bits that are discarded, a number is that of its bytes. */
  lemma KeptOfTwo(a: Sextet, b: Sextet, c: Sextet)
    ensures var n, low := Number(a, b, c, 0), c % 4;
            n % 0x100 == low * 64 && n - low * 64 == Number(a, b, c - low, 0)
  {
    var low, high := c as int % 4, c as int / 4;
    assert Number(a, b, c, 0) == (a as int * 1024 + b as int * 16 + high) * 0x100 + low * 64;
    Remainder(a as int * 1024 + b as int * 16 + high, low * 64);
  }

  lemma KeptOfOne(a: Sextet, b: Sextet)
    ensures var n, low := Number(a, b, 0, 0), b % 16;
            n % 0x1_0000 == low * 0x1000 && n - low * 0x1000 == Number(a, b - low, 0, 0)
  {
    var low, high := b as int % 16, b as int / 16;
    assert Number(a, b, 0, 0) == (a as int * 4 + high) * 0x1_0000 + low * 0x1000;
    Remainder(a as int * 4 + high, low * 0x1000);
  }

  /** One quad of the padded grammar: at most two `=`, at the end, and only in the last quad. */
  predicate QuadInGrammar(quad: string, last: bool)
    requires |quad| == 4
  {
    var pad := PadOf(quad);
    pad <= 2 && (pad > 0 ==> last) && forall i | 0 <= i < 4 - pad :: ValueOf(quad[i]).Some?
  }

  lemma QuadOkIff(quad: string, last: bool)
    requires |quad| == 4
    ensures DecodeQuad(quad, last).Ok? <==> QuadInGrammar(quad, last)
    ensures DecodeQuad(quad, last).Ok? ==> |DecodeQuad(quad, last).value| == 3 - PadOf(quad)
  {
    var pad := PadOf(quad);
    if pad <= 2 {
      var data := quad[..4 - pad];
      ValuesOk(data);
      assert (forall c | c in data :: ValueOf(c).Some?) <==> forall i | 0 <= i < |data| :: ValueOf(data[i]).Some?;
    }
  }

  /** A chunk whose number has these sextets is encoded by their characters. */
  lemma QuadOfNumber(chunk: seq<Byte>, a: Sextet, b: Sextet, c: Sextet, d: Sextet)
    requires 1 <= |chunk| <= 3 && Joined(chunk) == Number(a, b, c, d)
    ensures QuadOf(chunk)
            == [CharOf(a), CharOf(b), if |chunk| > 1 then CharOf(c) else '=', if |chunk| > 2 then CharOf(d) else '=']
  {
    Sextets(a, b, c, d);
  }

  lemma CharBack(c: char)
    requires ValueOf(c).Some?
    ensures CharOf(SextetOf(c)) == c
  {
    TablesInverse(0, c);
  }

  lemma SameChar(c: char, v: Sextet)
    requires ValueOf(c).Some?
    ensures CharOf(v) == c <==> v == SextetOf(c)
  {
    TablesInverse(v, c);
  }

  /** What a quad of this data decodes to. */
  lemma DecodeIs(quad: string, pad: nat, a: Sextet, b: Sextet, c: Sextet, d: Sextet)
    requires |quad| == 4 && pad <= 2
    requires ValueOf(quad[0]) == Some(a) && ValueOf(quad[1]) == Some(b)
    requires if pad < 2 then ValueOf(quad[2]) == Some(c) else c == 0
    requires if pad < 1 then ValueOf(quad[3]) == Some(d) else d == 0
    ensures DecodePadded(quad, pad, true) == Ok(BytesOf(Number(a, b, c, d))[..3 - pad])
  {
    NumberOfData(quad[..4 - pad], a, b, c, d);
  }

  lemma JoinedOfTwo(a: Sextet, b: Sextet, c: Sextet)
    ensures Joined(BytesOf(Number(a, b, c, 0))[..2]) == Number(a, b, c - c % 4, 0)
  {
    Sextets(a, b, c, 0);
    BytesRejoined(Number(a, b, c, 0));
    KeptOfTwo(a, b, c);
  }

  lemma JoinedOfOne(a: Sextet, b: Sextet)
    ensures Joined(BytesOf(Number(a, b, 0, 0))[..1]) == Number(a, b - b % 16, 0, 0)
  {
    Sextets(a, b, 0, 0);
    BytesRejoined(Number(a, b, 0, 0));
    KeptOfOne(a, b);
  }

  lemma JoinedOfThree(a: Sextet, b: Sextet, c: Sextet, d: Sextet)
    ensures Joined(BytesOf(Number(a, b, c, d))[..3]) == Number(a, b, c, d)
  {
    Sextets(a, b, c, d);
    BytesRejoined(Number(a, b, c, d));
    assert BytesOf(Number(a, b, c, d))[..3] == BytesOf(Number(a, b, c, d));
  }

  lemma EncodesThree(a: Sextet, b: Sextet, c: Sextet, d: Sextet)
    ensures QuadOf(BytesOf(Number(a, b, c, d))[..3]) == [CharOf(a), CharOf(b), CharOf(c), CharOf(d)]
  {
    JoinedOfThree(a, b, c, d);
    QuadOfNumber(BytesOf(Number(a, b, c, d))[..3], a, b, c, d);
  }

  lemma EncodesTwo(a: Sextet, b: Sextet, c: Sextet)
    ensures QuadOf(BytesOf(Number(a, b, c, 0))[..2]) == [CharOf(a), CharOf(b), CharOf(c - c % 4), '=']
  {
    JoinedOfTwo(a, b, c);
    QuadOfNumber(BytesOf(Number(a, b, c, 0))[..2], a, b, c - c % 4, 0);
  }

  lemma EncodesOne(a: Sextet, b: Sextet)
    ensures QuadOf(BytesOf(Number(a, b, 0, 0))[..1]) == [CharOf(a), CharOf(b - b % 16), '=', '=']
  {
    JoinedOfOne(a, b);
    QuadOfNumber(BytesOf(Number(a, b, 0, 0))[..1], a, b - b % 16, 0, 0);
  }

  predicate DataAre(quad: string, k: nat)
    requires k <= |quad|
  {
    forall i | 0 <= i < k :: ValueOf(quad[i]).Some?
  }

  lemma FullQuadBack(quad: string)
    requires |quad| == 4 && DataAre(quad, 4)
    ensures DecodePadded(quad, 0, true).Ok? && |DecodePadded(quad, 0, true).value| == 3
    ensures QuadOf(DecodePadded(quad, 0, true).value) == quad
  {
    var a, b, c, d := SextetOf(quad[0]), SextetOf(quad[1]), SextetOf(quad[2]), SextetOf(quad[3]);
    DecodeIs(quad, 0, a, b, c, d);
    EncodesThree(a, b, c, d);
    CharBack(quad[0]);
    CharBack(quad[1]);
    CharBack(quad[2]);
    CharBack(quad[3]);
  }

  lemma TwoByteQuadBack(quad: string)
    requires |quad| == 4 && DataAre(quad, 3)
    ensures DecodePadded(quad, 1, true).Ok? && |DecodePadded(quad, 1, true).value| == 2
    ensures var v := SextetOf(quad[2]);
            QuadOf(DecodePadded(quad, 1, true).value) == [quad[0], quad[1], CharOf(v - v % 4), '=']
  {
    var a, b, c := SextetOf(quad[0]), SextetOf(quad[1]), SextetOf(quad[2]);
    DecodeIs(quad, 1, a, b, c, 0);
    EncodesTwo(a, b, c);
    CharBack(quad[0]);
    CharBack(quad[1]);
  }

  lemma OneByteQuadBack(quad: string)
    requires |quad| == 4 && DataAre(quad, 2)
    ensures DecodePadded(quad, 2, true).Ok? && |DecodePadded(quad, 2, true).value| == 1
    ensures var v := SextetOf(quad[1]);
            QuadOf(DecodePadded(quad, 2, true).value) == [quad[0], CharOf(v - v % 16), '=', '=']
  {
    var a, b := SextetOf(quad[0]), SextetOf(quad[1]);
    DecodeIs(quad, 2, a, b, 0, 0);
    EncodesOne(a, b);
    CharBack(quad[0]);
  }

  /** But for its discarded bits `q` is `s`, whose last `pad` characters are its padding. */
  predicate SameAt(q: string, s: string, pad: nat)
    requires |q| == |s|
  {
    && (forall i | 0 <= i < |s| && (pad == 0 || i != |s| - 1 - pad) :: q[i] == s[i])
    && (q == s <==> DiscardedAt(s, pad) == 0)
  }

  predicate SameButDiscarded(q: string, s: string)
    requires |q| == |s|
  {
    SameAt(q, s, PadOf(s))
  }

  lemma SameTwo(quad: string, v: Sextet)
    requires |quad| == 4 && quad[3] == '=' && ValueOf(quad[2]) == Some(v)
    ensures SameAt([quad[0], quad[1], CharOf(v - v % 4), '='], quad, 1)
  {
    var q := [quad[0], quad[1], CharOf(v - v % 4), '='];
    SameChar(quad[2], v - v % 4);
    assert q[3] == quad[3];
    if DiscardedAt(quad, 1) == 0 {
      assert q == quad;
    }
  }

  lemma SameOne(quad: string, v: Sextet)
    requires |quad| == 4 && quad[2] == quad[3] == '=' && ValueOf(quad[1]) == Some(v)
    ensures SameAt([quad[0], CharOf(v - v % 16), '=', '='], quad, 2)
  {
    var q := [quad[0], CharOf(v - v % 16), '=', '='];
    SameChar(quad[1], v - v % 16);
    assert q[2] == quad[2] && q[3] == quad[3];
    if DiscardedAt(quad, 2) == 0 {
      assert q == quad;
    }
  }

  /** Decoded and encoded again a quad is itself but for its discarded bits. */
  lemma PaddedBack(quad: string, pad: nat)
    requires |quad| == 4 && pad <= 2 && DataAre(quad, 4 - pad) && forall i | 4 - pad <= i < 4 :: quad[i] == '='
    ensures DecodePadded(quad, pad, true).Ok? && |DecodePadded(quad, pad, true).value| == 3 - pad
    ensures SameAt(QuadOf(DecodePadded(quad, pad, true).value), quad, pad)
  {
    if pad == 0 {
      FullQuadBack(quad);
    } else if pad == 1 {
      TwoByteQuadBack(quad);
      SameTwo(quad, SextetOf(quad[2]));
    } else {
      OneByteQuadBack(quad);
      SameOne(quad, SextetOf(quad[1]));
    }
  }

  lemma QuadBack(quad: string, last: bool)
    requires |quad| == 4 && DecodeQuad(quad, last).Ok?
    ensures |DecodeQuad(quad, last).value| == 3 - PadOf(quad) && PadOf(quad) <= 2
    ensures SameButDiscarded(QuadOf(DecodeQuad(quad, last).value), quad)
  {
    QuadOkIff(quad, last);
    PadFacts(quad);
    PaddedBack(quad, PadOf(quad));
  }

  // ---- all of it ----------------------------------------------------------------------------------

  /** The first quad, and the rest. */
  lemma DecodedSplits(quad: string, rest: string)
    requires |quad| == 4 && |rest| % 4 == 0
    ensures Decoded(quad + rest)
            == var r := DecodeQuad(quad, rest == ""); if r.Ok? then Prepend(r.value, Decoded(rest)) else r
  {
    assert (quad + rest)[..4] == quad && (quad + rest)[4..] == rest;
  }

  lemma EncodedSplits(bytes: seq<Byte>)
    requires bytes != []
    ensures var k := Least(3, |bytes|); Encoded(bytes) == QuadOf(bytes[..k]) + Encoded(bytes[k..])
  {}

  lemma {:induction false} EncodedLength(bytes: seq<Byte>)
    ensures |Encoded(bytes)| == (|bytes| + 2) / 3 * 4
  {
    if bytes != [] {
      EncodedLength(bytes[Least(3, |bytes|)..]);
    }
  }

  /** Every byte string comes back. */
  lemma {:induction false} RoundTrip(bytes: seq<Byte>)
    ensures Decoded(Encoded(bytes)) == Ok(bytes)
  {
    if bytes != [] {
      var k := Least(3, |bytes|);
      EncodedSplits(bytes);
      assert bytes == bytes[..k] + bytes[k..];
      EncodedLength(bytes[k..]);
      RoundTrip(bytes[k..]);
      DecodedSplits(QuadOf(bytes[..k]), Encoded(bytes[k..]));
      QuadRoundTrip(bytes[..k], Encoded(bytes[k..]) == "");
    }
  }

  /** The padded grammar: whole quads of the alphabet, the last two characters perhaps `=`. */
  predicate InGrammar(s: string) {
    && |s| % 4 == 0 && PadOf(s) <= 2
    && forall i | 0 <= i < |s| - PadOf(s) :: ValueOf(s[i]).Some?
  }

  lemma PadAtLeast(s: string, k: nat)
    requires k <= |s| && forall i | |s| - k <= i < |s| :: s[i] == '='
    ensures PadOf(s) >= k
  {
    PadFacts(s);
    var n := PadOf(s);
    assert n < |s| ==> s[|s| - n - 1] != '=';
  }

  lemma AppendedPad(quad: string, rest: string)
    requires |quad| == 4 && |rest| >= 4
    ensures PadOf(rest) <= 3 ==> PadOf(quad + rest) == PadOf(rest)
    ensures PadOf(rest) > 3 ==> PadOf(quad + rest) > 3
  {
    var s, pad := quad + rest, PadOf(rest);
    PadFacts(rest);
    forall i | |s| - pad <= i < |s| ensures s[i] == '=' {
      assert s[i] == rest[i - 4];
    }
    if pad <= 3 {
      assert s[|s| - pad - 1] == rest[|rest| - pad - 1];
      PadIs(s, pad);
    } else {
      PadAtLeast(s, pad);
    }
  }

  lemma FirstQuadOf(s: string)
    requires |s| >= 8 && |s| % 4 == 0
    ensures InGrammar(s) <==> QuadInGrammar(s[..4], false) && InGrammar(s[4..])
  {
    var q, t := s[..4], s[4..];
    assert s == q + t;
    AppendedPad(q, t);
    assert forall i | 0 <= i < |t| :: t[i] == s[4 + i];
    assert forall i | 0 <= i < 4 :: q[i] == s[i];
    if InGrammar(s) {
      PadIs(q, 0);
      forall i | 0 <= i < |t| - PadOf(t) ensures ValueOf(t[i]).Some? {
        assert ValueOf(s[4 + i]).Some?;
      }
    }
    if QuadInGrammar(q, false) && InGrammar(t) {
      forall i | 0 <= i < |s| - PadOf(s) ensures ValueOf(s[i]).Some? {
        assert if i < 4 then ValueOf(q[i]).Some? else ValueOf(t[i - 4]).Some?;
      }
    }
  }

  /** Decoding accepts exactly the padded grammar, and gives three bytes a quad, less the padding. */
  lemma {:induction false} DecodesExactlyTheGrammar(s: string)
    ensures Decoded(s).Ok? <==> InGrammar(s)
    ensures Decoded(s).Ok? ==> |Decoded(s).value| == |s| / 4 * 3 - PadOf(s)
  {
    if |s| % 4 == 0 && s != "" {
      assert s == s[..4] + s[4..];
      DecodedSplits(s[..4], s[4..]);
      QuadOkIff(s[..4], s[4..] == "");
      if |s| == 4 {
        assert s[..4] == s;
      } else {
        DecodesExactlyTheGrammar(s[4..]);
        FirstQuadOf(s);
        AppendedPad(s[..4], s[4..]);
      }
    }
  }

  lemma SameAppended(quad: string, t: string, rest: string, pad: nat)
    requires |quad| == 4 && |t| == |rest| && |rest| >= 4 && pad <= 2 && SameAt(t, rest, pad)
    ensures SameAt(quad + t, quad + rest, pad)
  {
    var s, u := quad + rest, quad + t;
    forall i | 0 <= i < |s| && (pad == 0 || i != |s| - 1 - pad) ensures u[i] == s[i] {
      if i >= 4 {
        assert t[i - 4] == rest[i - 4];
      }
    }
    assert u[4..] == t && s[4..] == rest;
    assert s[|s| - 2] == rest[|rest| - 2] && s[|s| - 3] == rest[|rest| - 3];
    assert DiscardedAt(s, pad) == DiscardedAt(rest, pad);
  }

  /** Two texts of the same bytes are of one length and differ at most in the bits that are
      discarded: a text is what encoding gives back exactly if it has none of them set. */
  lemma {:induction false} NearCanonical(s: string)
    requires Decoded(s).Ok?
    ensures |Encoded(Decoded(s).value)| == |s| && SameButDiscarded(Encoded(Decoded(s).value), s)
  {
    if s != "" {
      var quad, rest := s[..4], s[4..];
      assert s == quad + rest;
      DecodedSplits(quad, rest);
      var b := DecodeQuad(quad, rest == "").value;
      QuadBack(quad, rest == "");
      if rest == "" {
        assert s == quad && b + [] == b && QuadOf(b) + "" == QuadOf(b);
        EncodedSplits(b);
        assert b[..|b|] == b && b[|b|..] == [];
      } else {
        NearCanonical(rest);
        DecodesExactlyTheGrammar(rest);
        QuadOkIff(quad, false);
        EncodedJoins(b, Decoded(rest).value);
        SameAppended(quad, Encoded(Decoded(rest).value), rest, PadOf(rest));
        AppendedPad(quad, rest);
      }
    }
  }

  lemma EncodedJoins(b: seq<Byte>, rest: seq<Byte>)
    requires |b| == 3
    ensures Encoded(b + rest) == QuadOf(b) + Encoded(rest)
  {
    assert (b + rest)[..3] == b && (b + rest)[3..] == rest;
  }
}
