/** What an encoding is, character by character, by the table of section 4 of RFC 4648.
    (crates/core/src/base64.rs) */
module Base64Table {
  import opened Base64

  ghost function ByteAt(bytes: seq<Byte>, i: nat): Byte {
    if i < |bytes| then bytes[i] else 0
  }

  /** Six bits, the `k`-th of those of three bytes. */
  ghost function SixBits(a: Byte, b: Byte, c: Byte, k: nat): Sextet
    requires k < 4
  {
    match k
    case 0 => a / 4
    case 1 => a % 4 * 16 + b / 16
    case 2 => b % 16 * 4 + c / 64
    case _ => c % 64
  }

  function Packed(a: nat, b: nat, c: nat): nat {
    a * 0x1_0000 + b * 0x100 + c
  }

  lemma FirstBits(a: nat, high: nat, low: nat, rest: nat)
    requires a == high * 4 + low && low < 4 && high < 64 && rest < 0x1_0000
    ensures (a * 0x1_0000 + rest) / 0x4_0000 % 64 == high
  {
    assert a * 0x1_0000 + rest == high * 0x4_0000 + (low * 0x1_0000 + rest);
  }

  lemma SecondBits(ahigh: nat, alow: nat, bhigh: nat, blow: nat, c: nat)
    requires alow < 4 && bhigh < 16 && blow < 16 && c < 0x100
    ensures Packed(ahigh * 4 + alow, bhigh * 16 + blow, c) / 0x1000 % 64 == alow * 16 + bhigh
  {
    var q := ahigh * 64 + (alow * 16 + bhigh);
    assert Packed(ahigh * 4 + alow, bhigh * 16 + blow, c) == q * 0x1000 + (blow * 0x100 + c);
  }

  lemma ThirdBits(a: nat, bhigh: nat, blow: nat, chigh: nat, clow: nat)
    requires blow < 16 && chigh < 4 && clow < 64
    ensures Packed(a, bhigh * 16 + blow, chigh * 64 + clow) / 0x40 % 64 == blow * 4 + chigh
    ensures Packed(a, bhigh * 16 + blow, chigh * 64 + clow) % 64 == clow
  {
    var q := (a * 16 + bhigh) * 64 + (blow * 4 + chigh);
    assert Packed(a, bhigh * 16 + blow, chigh * 64 + clow) == q * 0x40 + clow;
  }

  lemma JoinedBits(a: Byte, b: Byte, c: Byte, k: nat)
    requires k < 4
    ensures SextetAt(Packed(a, b, c), k) == SixBits(a, b, c, k)
  {
    match k
    case 0 => FirstBits(a, a / 4, a % 4, b as int * 0x100 + c as int);
    case 1 => SecondBits(a / 4, a % 4, b / 16, b % 16, c);
    case _ => ThirdBits(a, b / 16, b % 16, c / 64, c % 64);
  }

  lemma QuadAt(chunk: seq<Byte>, k: nat)
    requires 1 <= |chunk| <= 3 && k < 4
    ensures QuadOf(chunk)[k] ==
            if k > |chunk| then '='
            else ALPHABET[SixBits(chunk[0], ByteAt(chunk, 1), ByteAt(chunk, 2), k)]
  {
    JoinedBits(chunk[0], ByteAt(chunk, 1), ByteAt(chunk, 2), k);
    assert Joined(chunk) == Packed(chunk[0], ByteAt(chunk, 1), ByteAt(chunk, 2));
    TableIsRanges(SextetAt(Joined(chunk), k));
  }

  /** Each character of six bits of the bytes read in order, by the table, with zeros past the last byte;
      and padding once no bit of a byte is left. */
  ghost function SignAt(bytes: seq<Byte>, k: nat): char {
    var i := k / 4 * 3;
    if i + k % 4 > |bytes| then '='
    else ALPHABET[SixBits(ByteAt(bytes, i), ByteAt(bytes, i + 1), ByteAt(bytes, i + 2), k % 4)]
  }

  lemma SignOfFirst(bytes: seq<Byte>, k: nat)
    requires bytes != [] && k < 4
    ensures QuadOf(bytes[..Least(3, |bytes|)])[k] == SignAt(bytes, k)
  {
    var n := Least(3, |bytes|);
    var chunk := bytes[..n];
    QuadAt(chunk, k);
    assert ByteAt(chunk, 1) == ByteAt(bytes, 1) && ByteAt(chunk, 2) == ByteAt(bytes, 2);
    assert k / 4 == 0 && k % 4 == k;
  }

  lemma SignOfLater(bytes: seq<Byte>, k: nat)
    requires |bytes| > 3 && k >= 4
    ensures SignAt(bytes[3..], k - 4) == SignAt(bytes, k)
  {
    PlaceBefore(k);
    var i := k / 4 * 3;
    assert ByteAt(bytes[3..], i - 3) == ByteAt(bytes, i) && ByteAt(bytes[3..], i - 2) == ByteAt(bytes, i + 1);
    assert ByteAt(bytes[3..], i - 1) == ByteAt(bytes, i + 2);
  }

  /** The encoding, character by character. */
  lemma {:induction false} EncodedAt(bytes: seq<Byte>, k: nat)
    requires k < |Encoded(bytes)|
    ensures Encoded(bytes)[k] == SignAt(bytes, k)
  {
    if k < 4 {
      SignOfFirst(bytes, k);
    } else {
      EncodedAt(bytes[Least(3, |bytes|)..], k - 4);
      SignOfLater(bytes, k);
    }
  }

  lemma PlaceBefore(k: nat)
    requires k >= 4
    ensures (k - 4) / 4 * 3 == k / 4 * 3 - 3 && (k - 4) % 4 == k % 4
  {}

  // ---- what a refusal says -----------------------------------------------------------------------------

  /** It names a character that is there and not in the alphabet, or a length that is no number of quads;
      padding is out of place only where there is some. */
  ghost predicate Tells(e: Error, s: string) {
    match e
    case BadLength(n) => false
    case BadChar(c) => c in s && c !in ALPHABET
    case Misplaced => '=' in s
  }

  lemma OfAlphabet(c: char)
    ensures c in ALPHABET <==> ValueOf(c).Some?
  {
    if ValueOf(c).Some? {
      TablesInverse(ValueOf(c).value, c);
      TableIsRanges(ValueOf(c).value);
    }
    if c in ALPHABET {
      var v :| 0 <= v < |ALPHABET| && ALPHABET[v] == c;
      TableIsRanges(v);
      TablesInverse(v, c);
    }
  }

  lemma {:induction false} ValuesTell(s: string)
    ensures ValueOfAll(s).Err? ==> Tells(ValueOfAll(s).error, s)
  {
    if s != "" {
      var n := |s| - 1;
      ValuesTell(s[..n]);
      OfAlphabet(s[n]);
      assert forall c | c in s[..n] :: c in s;
    }
  }

  lemma PaddedTells(quad: string, pad: nat, last: bool)
    requires |quad| == 4 && (pad > 0 ==> '=' in quad)
    ensures var r := DecodePadded(quad, pad, last); r.Err? ==> Tells(r.error, quad)
  {
    if pad <= 2 {
      ValuesTell(quad[..4 - pad]);
      assert forall c | c in quad[..4 - pad] :: c in quad;
    }
  }

  lemma PadIsThere(s: string)
    ensures PadOf(s) > 0 ==> '=' in s
  {
    if s != "" {
      assert s[|s| - 1] in s;
    }
  }

  lemma QuadTells(quad: string, last: bool)
    requires |quad| == 4
    ensures var r := DecodeQuad(quad, last); r.Err? ==> Tells(r.error, quad)
  {
    PadIsThere(quad);
    PaddedTells(quad, PadOf(quad), last);
  }

  lemma {:induction false} QuadsTell(s: string)
    requires |s| % 4 == 0
    ensures DecodeQuads(s).Err? ==> Tells(DecodeQuads(s).error, s)
  {
    if s != "" {
      QuadTells(s[..4], |s| == 4);
      QuadsTell(s[4..]);
      assert forall c | c in s[..4] || c in s[4..] :: c in s;
    }
  }

  lemma RefusalTells(s: string)
    requires Decoded(s).Err?
    ensures if |s| % 4 != 0 then Decoded(s).error == BadLength(|s|) else Tells(Decoded(s).error, s)
  {
    if |s| % 4 == 0 {
      QuadsTell(s);
    }
  }
}
