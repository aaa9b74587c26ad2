/** Base 64 encoding with the standard alphabet and '=' padding, as in
    section 4 of RFC 4648. The relay re-encodes every audio delta it receives
    from the speech service (decode, then encode); this module shows that the
    round trip is the identity on canonical strings, so the payload reaches the
    caller unchanged.

    Both directions go through a string of symbols: a symbol is a digit value
    0..63 or PAD, which stands for '='. The arithmetic works on symbols only;
    `Spell` and `Read` change symbols into characters and back. */
module Base64 {
  import opened Wrappers

  type byte = x: int | 0 <= x < 256
  type sextet = x: int | 0 <= x < 64

  /** A digit value, or PAD. */
  type symbol = x: int | 0 <= x <= 64

  const PAD: symbol := 64

  // ----- characters -----

  /** The 64 characters of the alphabet of section 4 of RFC 4648. */
  predicate IsAlphabetChar(c: char) {
    ('A' <= c <= 'Z') || ('a' <= c <= 'z') || ('0' <= c <= '9') || c == '+' || c == '/'
  }

  function CharOf(v: sextet): (c: char)
    ensures IsAlphabetChar(c)
  {
    if v < 26 then ('A' as int + v) as char
    else if v < 52 then ('a' as int + (v - 26)) as char
    else if v < 62 then ('0' as int + (v - 52)) as char
    else if v == 62 then '+'
    else '/'
  }

  function ValueOf(c: char): (v: sextet)
    requires IsAlphabetChar(c)
    ensures CharOf(v) == c
  {
    if 'A' <= c <= 'Z' then c as int - 'A' as int
    else if 'a' <= c <= 'z' then c as int - 'a' as int + 26
    else if '0' <= c <= '9' then c as int - '0' as int + 52
    else if c == '+' then 62
    else 63
  }

  predicate IsSymbolChar(c: char) {
    IsAlphabetChar(c) || c == '='
  }

  function SymbolChar(v: symbol): (c: char)
    ensures IsSymbolChar(c)
  {
    if v == PAD then '=' else CharOf(v)
  }

  function SymbolOf(c: char): (v: symbol)
    requires IsSymbolChar(c)
    ensures SymbolChar(v) == c
  {
    if c == '=' then PAD else ValueOf(c)
  }

  /** `SymbolChar` is one-to-one, with `SymbolOf` as its inverse. */
  lemma SymbolOfSymbolChar(v: symbol)
    ensures SymbolOf(SymbolChar(v)) == v
  {
  }

  predicate AllSymbolChars(s: string) {
    forall i :: 0 <= i < |s| ==> IsSymbolChar(s[i])
  }

  /** The characters of a string of symbols. */
  function Spell(t: seq<symbol>): (s: string)
    ensures |s| == |t| && AllSymbolChars(s)
  {
    seq(|t|, i requires 0 <= i < |t| => SymbolChar(t[i]))
  }

  /** The symbols of a string of symbol characters. */
  function Read(s: string): (t: seq<symbol>)
    requires AllSymbolChars(s)
    ensures |t| == |s|
  {
    seq(|s|, i requires 0 <= i < |s| => SymbolOf(s[i]))
  }

  lemma ReadSpell(t: seq<symbol>)
    ensures Read(Spell(t)) == t
  {
    forall i | 0 <= i < |t|
      ensures Read(Spell(t))[i] == t[i]
    {
      SymbolOfSymbolChar(t[i]);
    }
  }

  lemma SpellRead(s: string)
    requires AllSymbolChars(s)
    ensures Spell(Read(s)) == s
  {
  }

  // ----- symbols -----

  /** Three bytes become four digits. */
  function EncodeGroup(b0: byte, b1: byte, b2: byte): seq<symbol> {
    var x0: int, x1: int, x2: int := b0, b1, b2;
    [x0 / 4, x0 % 4 * 16 + x1 / 16, x1 % 16 * 4 + x2 / 64, x2 % 64]
  }

  /** A final single byte: two digits and two PADs. */
  function EncodeOne(b0: byte): seq<symbol> {
    var x0: int := b0;
    [x0 / 4, x0 % 4 * 16, PAD, PAD]
  }

  /** Two final bytes: three digits and one PAD. */
  function EncodeTwo(b0: byte, b1: byte): seq<symbol> {
    var x0: int, x1: int := b0, b1;
    [x0 / 4, x0 % 4 * 16 + x1 / 16, x1 % 16 * 4, PAD]
  }

  /** Whole groups of three bytes, then a final quantum of one or two bytes
      padded with two or one PAD (section 4 of RFC 4648). */
  function EncodeSymbols(b: seq<byte>): (t: seq<symbol>)
    ensures |t| == (|b| + 2) / 3 * 4
    decreases |b|
  {
    if |b| == 0 then []
    else if |b| == 1 then EncodeOne(b[0])
    else if |b| == 2 then EncodeTwo(b[0], b[1])
    else LengthStep(|b|); EncodeGroup(b[0], b[1], b[2]) + EncodeSymbols(b[3..])
  }

  lemma LengthStep(n: int)
    requires n >= 3
    ensures (n - 3 + 2) / 3 * 4 + 4 == (n + 2) / 3 * 4
  {
  }

  /** Four digits, no padding. */
  predicate FullQuantum(q: seq<symbol>) {
    |q| == 4 && q[0] != PAD && q[1] != PAD && q[2] != PAD && q[3] != PAD
  }

  /** Four digits become three bytes. */
  function DecodeGroup(q: seq<symbol>): seq<byte>
    requires FullQuantum(q)
  {
    var c0: int, c1: int, c2: int, c3: int := q[0], q[1], q[2], q[3];
    [c0 * 4 + c1 / 16, c1 % 16 * 16 + c2 / 4, c2 % 4 * 64 + c3]
  }

  /** The last quantum, which may carry padding. A padded quantum is canonical
      only when the bits the padding discards are zero (section 3.5 of
      RFC 4648); anything else is rejected. */
  function DecodeFinal(q: seq<symbol>): Option<seq<byte>>
    requires |q| == 4
  {
    var c0: int, c1: int, c2: int := q[0], q[1], q[2];
    if FullQuantum(q) then Some(DecodeGroup(q))
    else if c0 != PAD && c1 != PAD && c2 == PAD && q[3] == PAD && c1 % 16 == 0 then
      Some([c0 * 4 + c1 / 16])
    else if c0 != PAD && c1 != PAD && c2 != PAD && q[3] == PAD && c2 % 4 == 0 then
      Some([c0 * 4 + c1 / 16, c1 % 16 * 16 + c2 / 4])
    else None
  }

  /** Strict decoding of symbols: whole quanta, PAD only at the end. */
  function DecodeSymbols(t: seq<symbol>): Option<seq<byte>>
    decreases |t|
  {
    if |t| == 0 then Some([])
    else if |t| < 4 then None
    else if |t| == 4 then DecodeFinal(t)
    else if !FullQuantum(t[..4]) then None
    else match DecodeSymbols(t[4..])
      case None => None
      case Some(rest) => Some(DecodeGroup(t[..4]) + rest)
  }

  // ----- strings -----

  function Encode(b: seq<byte>): (s: string)
    ensures |s| == (|b| + 2) / 3 * 4
  {
    Spell(EncodeSymbols(b))
  }

  /** Strict decoding: None for any string that is not canonical base 64. */
  function Decode(s: string): Option<seq<byte>> {
    if AllSymbolChars(s) then DecodeSymbols(Read(s)) else None
  }

  /** A string is canonical when the strict decoder accepts it. */
  predicate IsCanonical(s: string) {
    Decode(s).Some?
  }

  // ----- arithmetic -----

  lemma DivMod4(x: int, q: int, r: int)
    requires 0 <= r < 4 && x == q * 4 + r
    ensures x / 4 == q && x % 4 == r
  {
  }

  lemma DivMod16(x: int, q: int, r: int)
    requires 0 <= r < 16 && x == q * 16 + r
    ensures x / 16 == q && x % 16 == r
  {
  }

  lemma DivMod64(x: int, q: int, r: int)
    requires 0 <= r < 64 && x == q * 64 + r
    ensures x / 64 == q && x % 64 == r
  {
  }

  /** Regrouping 3 x 8 bits as 4 x 6 bits and back gives the bytes again. */
  lemma BitsForward(b0: byte, b1: byte, b2: byte)
    ensures (b0 / 4) * 4 + (b0 % 4 * 16 + b1 / 16) / 16 == b0
    ensures (b0 % 4 * 16 + b1 / 16) % 16 * 16 + (b1 % 16 * 4 + b2 / 64) / 4 == b1
    ensures (b1 % 16 * 4 + b2 / 64) % 4 * 64 + b2 % 64 == b2
  {
    DivMod16(b0 % 4 * 16 + b1 / 16, b0 % 4, b1 / 16);
    DivMod4(b1 % 16 * 4 + b2 / 64, b1 % 16, b2 / 64);
  }

  /** Regrouping 4 x 6 bits as 3 x 8 bits and back gives the digits again. */
  lemma BitsBack(c0: sextet, c1: sextet, c2: sextet, c3: sextet)
    ensures (c0 * 4 + c1 / 16) / 4 == c0
    ensures (c0 * 4 + c1 / 16) % 4 * 16 + (c1 % 16 * 16 + c2 / 4) / 16 == c1
    ensures (c1 % 16 * 16 + c2 / 4) % 16 * 4 + (c2 % 4 * 64 + c3) / 64 == c2
    ensures (c2 % 4 * 64 + c3) % 64 == c3
  {
    DivMod4(c0 * 4 + c1 / 16, c0, c1 / 16);
    DivMod16(c1 % 16 * 16 + c2 / 4, c1 % 16, c2 / 4);
    DivMod64(c2 % 4 * 64 + c3, c2 % 4, c3);
  }

  lemma OneByteArith(b0: byte)
    ensures (b0 % 4 * 16) % 16 == 0
    ensures (b0 / 4) * 4 + (b0 % 4 * 16) / 16 == b0
  {
    DivMod16(b0 % 4 * 16, b0 % 4, 0);
  }

  lemma TwoBytesArith(b0: byte, b1: byte)
    ensures (b1 % 16 * 4) % 4 == 0
    ensures (b0 / 4) * 4 + (b0 % 4 * 16 + b1 / 16) / 16 == b0
    ensures (b0 % 4 * 16 + b1 / 16) % 16 * 16 + (b1 % 16 * 4) / 4 == b1
  {
    DivMod16(b0 % 4 * 16 + b1 / 16, b0 % 4, b1 / 16);
    DivMod4(b1 % 16 * 4, b1 % 16, 0);
  }

  // ----- decoding undoes encoding -----

  lemma GroupRoundTrip(b0: byte, b1: byte, b2: byte)
    ensures FullQuantum(EncodeGroup(b0, b1, b2))
    ensures DecodeGroup(EncodeGroup(b0, b1, b2)) == [b0, b1, b2]
  {
    BitsForward(b0, b1, b2);
  }

  lemma DecodeTwoPads(c0: sextet, c1: sextet)
    requires c1 % 16 == 0
    ensures DecodeFinal([c0, c1, PAD, PAD]) == Some([c0 * 4 + c1 / 16])
  {
  }

  lemma DecodeOnePad(c0: sextet, c1: sextet, c2: sextet)
    requires c2 % 4 == 0
    ensures DecodeFinal([c0, c1, c2, PAD]) == Some([c0 * 4 + c1 / 16, c1 % 16 * 16 + c2 / 4])
  {
  }

  lemma OneRoundTrip(b0: byte)
    ensures DecodeFinal(EncodeOne(b0)) == Some([b0])
  {
    OneByteArith(b0);
    var c0: sextet, c1: sextet := b0 / 4, b0 % 4 * 16;
    assert EncodeOne(b0) == [c0, c1, PAD, PAD];
    DecodeTwoPads(c0, c1);
  }

  lemma TwoRoundTrip(b0: byte, b1: byte)
    ensures DecodeFinal(EncodeTwo(b0, b1)) == Some([b0, b1])
  {
    TwoBytesArith(b0, b1);
    var c0: sextet, c1: sextet, c2: sextet := b0 / 4, b0 % 4 * 16 + b1 / 16, b1 % 16 * 4;
    assert EncodeTwo(b0, b1) == [c0, c1, c2, PAD];
    DecodeOnePad(c0, c1, c2);
  }

  /** One final byte: encoded with two PADs and decoded back. */
  lemma OneByteRoundTrip(b: seq<byte>)
    requires |b| == 1
    ensures DecodeSymbols(EncodeSymbols(b)) == Some(b)
  {
    OneRoundTrip(b[0]);
    assert [b[0]] == b;
  }

  /** Two final bytes: encoded with one PAD and decoded back. */
  lemma TwoBytesRoundTrip(b: seq<byte>)
    requires |b| == 2
    ensures DecodeSymbols(EncodeSymbols(b)) == Some(b)
  {
    TwoRoundTrip(b[0], b[1]);
    assert [b[0], b[1]] == b;
  }

  /** Exactly three bytes: one quantum without padding. */
  lemma ThreeBytesRoundTrip(b: seq<byte>)
    requires |b| == 3
    ensures DecodeSymbols(EncodeSymbols(b)) == Some(b)
  {
    var q := EncodeGroup(b[0], b[1], b[2]);
    GroupRoundTrip(b[0], b[1], b[2]);
    assert b[3..] == [];
    assert EncodeSymbols(b) == q + [];
    assert q + [] == q;
    assert DecodeFinal(q) == Some([b[0], b[1], b[2]]);
    assert [b[0], b[1], b[2]] == b;
  }

  /** A full quantum followed by at least one more quantum decodes group by group. */
  lemma DecodeCons(g: seq<symbol>, r: seq<symbol>)
    requires FullQuantum(g) && |r| >= 4
    ensures DecodeSymbols(g + r)
         == if DecodeSymbols(r).Some? then Some(DecodeGroup(g) + DecodeSymbols(r).value) else None
  {
    var t := g + r;
    assert t[..4] == g;
    assert t[4..] == r;
  }

  /** A whole group of three bytes in front of a tail that round-trips. */
  lemma GroupsRoundTrip(b: seq<byte>)
    requires |b| > 3
    requires DecodeSymbols(EncodeSymbols(b[3..])) == Some(b[3..])
    ensures DecodeSymbols(EncodeSymbols(b)) == Some(b)
  {
    GroupRoundTrip(b[0], b[1], b[2]);
    DecodeCons(EncodeGroup(b[0], b[1], b[2]), EncodeSymbols(b[3..]));
    SplitThree(b);
  }

  lemma SplitThree(b: seq<byte>)
    requires |b| > 3
    ensures b == [b[0], b[1], b[2]] + b[3..]
  {
  }

  lemma {:induction false} DecodeEncodeSymbols(b: seq<byte>)
    ensures DecodeSymbols(EncodeSymbols(b)) == Some(b)
    decreases |b|
  {
    if |b| == 0 {
    } else if |b| == 1 {
      OneByteRoundTrip(b);
    } else if |b| == 2 {
      TwoBytesRoundTrip(b);
    } else if |b| == 3 {
      ThreeBytesRoundTrip(b);
    } else {
      DecodeEncodeSymbols(b[3..]);
      GroupsRoundTrip(b);
    }
  }

  /** Decoding undoes encoding, for every byte sequence. */
  lemma DecodeEncode(b: seq<byte>)
    ensures Decode(Encode(b)) == Some(b)
  {
    ReadSpell(EncodeSymbols(b));
    DecodeEncodeSymbols(b);
  }

  // ----- encoding undoes decoding -----

  lemma GroupRoundTripBack(q: seq<symbol>)
    requires FullQuantum(q)
    ensures var g := DecodeGroup(q); EncodeGroup(g[0], g[1], g[2]) == q
  {
    BitsBack(q[0], q[1], q[2], q[3]);
  }

  /** A padded final quantum is the encoding of the one or two bytes it decodes to. */
  lemma FinalRoundTripBack(q: seq<symbol>)
    requires |q| == 4 && !FullQuantum(q) && DecodeFinal(q).Some?
    ensures EncodeSymbols(DecodeFinal(q).value) == q
  {
    if q[2] == PAD {
      BitsBack(q[0], q[1], 0, 0);
      assert q == [q[0], q[1], PAD, PAD];
    } else {
      BitsBack(q[0], q[1], q[2], 0);
      DivMod4(q[2], q[2] / 4, 0);
      assert q == [q[0], q[1], q[2], PAD];
    }
  }

  lemma EncodeGroupThen(g: seq<byte>, t: seq<byte>)
    requires |g| == 3 && |t| > 0
    ensures EncodeSymbols(g + t) == EncodeGroup(g[0], g[1], g[2]) + EncodeSymbols(t)
  {
    assert (g + t)[3..] == t;
  }

  lemma {:induction false} EncodeDecodeSymbols(t: seq<symbol>)
    requires DecodeSymbols(t).Some?
    ensures EncodeSymbols(DecodeSymbols(t).value) == t
    decreases |t|
  {
    if |t| == 0 {
    } else if |t| == 4 {
      if FullQuantum(t) {
        GroupRoundTripBack(t);
        var g := DecodeGroup(t);
        assert EncodeSymbols(g) == EncodeGroup(g[0], g[1], g[2]) + [];
      } else {
        FinalRoundTripBack(t);
      }
    } else {
      EncodeDecodeSymbols(t[4..]);
      GroupRoundTripBack(t[..4]);
      EncodeGroupThen(DecodeGroup(t[..4]), DecodeSymbols(t[4..]).value);
      assert t == t[..4] + t[4..];
    }
  }

  /** Encoding undoes decoding: a canonical string is the encoding of what it
      decodes to. */
  lemma EncodeDecode(s: string)
    requires IsCanonical(s)
    ensures Encode(Decode(s).value) == s
  {
    EncodeDecodeSymbols(Read(s));
    SpellRead(s);
  }

  /** Every encoding is canonical, and distinct byte sequences encode to
      distinct strings. */
  lemma EncodeCanonicalAndInjective(a: seq<byte>, b: seq<byte>)
    ensures IsCanonical(Encode(a))
    ensures Encode(a) == Encode(b) ==> a == b
  {
    DecodeEncode(a);
    DecodeEncode(b);
  }
}
