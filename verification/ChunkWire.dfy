/** The bytes of the AWS streaming upload: chunk headers, their parsing and their encoding. */
module ChunkWire {
  import opened Common

  type bytes = seq<byte>

  const CR: byte := 13
  const LF: byte := 10
  const CRLF: bytes := [CR, LF]
  /** ";chunk-signature=" */
  const SIGNATURE_KEY: bytes := [59, 99, 104, 117, 110, 107, 45, 115, 105, 103, 110, 97, 116, 117, 114, 101, 61]
  const MAX_LINE_LENGTH: nat := 4096

  datatype Error = NoError | Eof | UnexpectedEof | LineTooLong | Malformed | InvalidByte | TooLarge | SignatureMismatch

  // ----- hexadecimal sizes -----

  predicate IsHex(b: byte) {
    48 <= b <= 57 || 97 <= b <= 102 || 65 <= b <= 70
  }

  function HexDigit(b: byte): nat
    requires IsHex(b)
  {
    if b <= 57 then b - 48 else if b >= 97 then b - 97 + 10 else b - 65 + 10
  }

  predicate AllHex(v: bytes) {
    forall i :: 0 <= i < |v| ==> IsHex(v[i])
  }

  /** The number a string of hexadecimal digits stands for. */
  function HexValue(v: bytes): nat
    requires AllHex(v)
  {
    if v == [] then 0 else 16 * HexValue(v[..|v|-1]) + HexDigit(v[|v|-1])
  }

  function Pow16(k: nat): nat {
    if k == 0 then 1 else 16 * Pow16(k - 1)
  }

  lemma {:induction false} HexValueBound(v: bytes)
    requires AllHex(v)
    ensures HexValue(v) < Pow16(|v|)
  {
    if v != [] {
      HexValueBound(v[..|v|-1]);
    }
  }

  lemma Pow16Sixteen()
    ensures forall k :: 0 <= k <= 16 ==> Pow16(k) <= 0x1_0000_0000_0000_0000
  {
    forall k | 0 <= k <= 16 ensures Pow16(k) <= 0x1_0000_0000_0000_0000 {
      Pow16Mono(k, 16);
      assert Pow16(4) == 0x1_0000;
      assert Pow16(8) == 0x1_0000_0000 by { Pow16Sum(4, 4); }
      Pow16Sum(8, 8);
    }
  }

  lemma {:induction false} Pow16Mono(a: nat, b: nat)
    requires a <= b
    ensures Pow16(a) <= Pow16(b)
  {
    if a < b { Pow16Mono(a, b - 1); }
  }

  lemma {:induction false} Pow16Sum(a: nat, b: nat)
    ensures Pow16(a + b) == Pow16(a) * Pow16(b)
  {
    if b > 0 { Pow16Sum(a, b - 1); }
  }

  function ParsedHex(v: bytes): (nat, Error) {
    if !AllHex(v[..Min(|v|, 17)]) then (0, InvalidByte)
    else if |v| > 16 then (0, TooLarge)
    else assert v[..|v|] == v; (HexValue(v), NoError)
  }

  /**
   Parses a chunk length into 64 bits: the exact value of up to 16 digits; a longer string or one with
   another byte is rejected.
   */
  method ParseHexUint(v: bytes) returns (n: nat, err: Error)
    ensures err == NoError <==> AllHex(v) && |v| <= 16
    ensures err == NoError ==> n == HexValue(v) < 0x1_0000_0000_0000_0000
    ensures err == TooLarge <==> |v| > 16 && AllHex(v[..17])
    ensures (n, err) == ParsedHex(v)
  {
    n := 0;
    for i := 0 to |v|
      invariant i <= 16 && AllHex(v[..i]) && n == HexValue(v[..i])
    {
      assert v[..i+1][..i] == v[..i];
      var b := v[i];
      if !IsHex(b) {
        assert v[..Min(|v|, 17)][i] == b;
        return 0, InvalidByte;
      }
      if i == 16 {
        assert v[..17] == v[..16] + [b];
        return 0, TooLarge;
      }
      HexValueBound(v[..i+1]);
      Pow16Sixteen();
      // n <<= 4 and n |= digit, in 64 bits
      n := (n * 16 % 0x1_0000_0000_0000_0000) + HexDigit(b);
    }
    assert v[..|v|] == v;
    HexValueBound(v);
    Pow16Sixteen();
    err := NoError;
  }

  /** The digits of a number. */
  function Hex(n: nat): bytes {
    var d := n % 16;
    var digit: byte := if d < 10 then 48 + d else 97 + d - 10;
    if n < 16 then [digit] else Hex(n / 16) + [digit]
  }

  lemma {:induction false} HexRoundTrip(n: nat)
    ensures AllHex(Hex(n)) && HexValue(Hex(n)) == n && |Hex(n)| > 0
  {
    if n >= 16 {
      HexRoundTrip(n / 16);
      assert Hex(n)[..|Hex(n)|-1] == Hex(n / 16);
    } else {
      assert Hex(n)[..0] == [];
    }
  }

  lemma {:induction false} HexLength(n: nat, k: nat)
    requires n < Pow16(k) && k > 0
    ensures |Hex(n)| <= k
  {
    if n >= 16 {
      HexLength(n / 16, k - 1);
    }
  }

  // ----- header lines -----

  function FindByte(s: bytes, b: byte): (k: nat)
    ensures k <= |s| && (k < |s| ==> s[k] == b) && forall j :: 0 <= j < k ==> s[j] != b
  {
    if s == [] then 0 else if s[0] == b then 0 else 1 + FindByte(s[1..], b)
  }

  predicate IsSpace(b: byte) {
    b == 32 || b == 9 || b == LF || b == CR
  }

  function Trim(b: bytes): bytes {
    if b == [] || !IsSpace(b[|b|-1]) then b else Trim(b[..|b|-1])
  }

  /** Where the key first occurs, or the length of s. */
  function FindKey(s: bytes, key: bytes): (k: nat)
    ensures k <= |s| && (k < |s| ==> k + |key| <= |s|)
  {
    if s == [] || |s| < |key| then |s|
    else if s[..|key|] == key then 0
    else 1 + FindKey(s[1..], key)
  }

  /** Size digits and signature of a header line, without the line end. */
  function ParseExtension(line: bytes): (bytes, bytes) {
    var t := Trim(line);
    var k := FindKey(t, SIGNATURE_KEY);
    if k == |t| then (t, []) else (t[..k], t[k + |SIGNATURE_KEY|..])
  }

  /** A line up to LF out of a buffered reader with a buffer of MAX_LINE_LENGTH bytes. */
  datatype Line = Line(rest: bytes, text: bytes, err: Error)

  function ReadLine(input: bytes): Line {
    var k := FindByte(input, LF);
    if k < |input| && k < MAX_LINE_LENGTH then
      Line(input[k+1..], input[..k+1], if k + 1 >= MAX_LINE_LENGTH then LineTooLong else NoError)
    else if |input| >= MAX_LINE_LENGTH then Line(input[MAX_LINE_LENGTH..], [], LineTooLong)
    else Line([], [], UnexpectedEof)
  }

  datatype Header = Header(rest: bytes, n: nat, signature: bytes, err: Error)

  /** A chunk header: `<hex>;chunk-signature=<signature>`; length zero reads as the end of the chunks. */
  function ReadHeader(input: bytes): Header {
    var line := ReadLine(input);
    if line.err != NoError then Header(line.rest, 0, [], line.err)
    else
      var (hex, signature) := ParseExtension(line.text);
      var (n, err) := ParsedHex(hex);
      if err != NoError then Header(line.rest, 0, [], err)
      else Header(line.rest, n, signature, if n == 0 then Eof else NoError)
  }

  /** A signature as the code computes it: the hexadecimal form of a 32-byte hash. */
  predicate IsSignature(sig: bytes) {
    |sig| == 64 && AllHex(sig)
  }

  function HeaderLine(hex: bytes, sig: bytes): bytes {
    hex + SIGNATURE_KEY + sig + CRLF
  }

  lemma {:induction false} FindByteAt(s: bytes, b: byte, k: nat)
    requires k < |s| && s[k] == b && forall j :: 0 <= j < k ==> s[j] != b
    ensures FindByte(s, b) == k
  {
    if k > 0 {
      FindByteAt(s[1..], b, k - 1);
    }
  }

  lemma {:induction false} FindKeyAt(s: bytes, key: bytes, k: nat)
    requires |key| > 0 && k + |key| <= |s| && s[k..k + |key|] == key
    requires forall j :: 0 <= j < k ==> s[j] != key[0]
    ensures FindKey(s, key) == k
  {
    if k == 0 {
      assert s[..|key|] == key;
    } else {
      assert s[..|key|][0] == s[0] != key[0];
      assert s[1..][k-1..k-1+|key|] == s[k..k+|key|];
      FindKeyAt(s[1..], key, k - 1);
    }
  }

  /** The header line without CRLF. */
  function HeaderText(hex: bytes, sig: bytes): bytes {
    hex + SIGNATURE_KEY + sig
  }

  lemma TrimLine(hex: bytes, sig: bytes)
    requires IsSignature(sig)
    ensures Trim(HeaderLine(hex, sig)) == HeaderText(hex, sig)
  {
    var line, text := HeaderLine(hex, sig), HeaderText(hex, sig);
    assert line == text + [CR, LF];
    assert line[..|line|-1] == text + [CR];
    assert (text + [CR])[..|text|] == text;
    assert text[|text|-1] == sig[63] && IsHex(sig[63]);
    assert Trim(text) == text;
    assert Trim(text + [CR]) == text;
  }

  lemma ExtensionRoundTrip(hex: bytes, sig: bytes)
    requires AllHex(hex) && IsSignature(sig)
    ensures ParseExtension(HeaderLine(hex, sig)) == (hex, sig)
  {
    var text := HeaderText(hex, sig);
    TrimLine(hex, sig);
    assert text[|hex|..|hex| + |SIGNATURE_KEY|] == SIGNATURE_KEY;
    forall j | 0 <= j < |hex| ensures text[j] != SIGNATURE_KEY[0] {
      assert text[j] == hex[j] && IsHex(hex[j]);
    }
    FindKeyAt(text, SIGNATURE_KEY, |hex|);
    assert text[..|hex|] == hex;
    assert text[|hex| + |SIGNATURE_KEY|..] == sig;
  }

  lemma LineRoundTrip(hex: bytes, sig: bytes, tail: bytes)
    requires AllHex(hex) && |hex| <= 16 && IsSignature(sig)
    ensures ReadLine(HeaderLine(hex, sig) + tail) == Line(tail, HeaderLine(hex, sig), NoError)
  {
    var line := HeaderLine(hex, sig);
    var input, k := line + tail, |line| - 1;
    forall j | 0 <= j < k ensures input[j] != LF {
      assert input[j] == line[j];
      if j < |hex| {
        assert line[j] == hex[j] && IsHex(hex[j]);
      } else if j < |hex| + |SIGNATURE_KEY| {
        assert line[j] == SIGNATURE_KEY[j - |hex|];
      } else if j < |hex| + |SIGNATURE_KEY| + 64 {
        assert line[j] == sig[j - |hex| - |SIGNATURE_KEY|] && IsHex(line[j]);
      }
    }
    FindByteAt(input, LF, k);
    assert input[..k+1] == line && input[k+1..] == tail;
  }

  /** Reading an encoded header gives back its size and signature and leaves what follows. */
  lemma HeaderRoundTrip(hex: bytes, sig: bytes, tail: bytes)
    requires AllHex(hex) && |hex| <= 16 && IsSignature(sig)
    ensures ReadHeader(HeaderLine(hex, sig) + tail)
      == Header(tail, HexValue(hex), sig, if HexValue(hex) == 0 then Eof else NoError)
  {
    LineRoundTrip(hex, sig, tail);
    ExtensionRoundTrip(hex, sig);
    assert hex[..|hex|] == hex;
  }

  /** Reading a header never gives bytes back. */
  lemma HeaderConsumes(input: bytes)
    ensures |ReadHeader(input).rest| <= |input|
    ensures ReadHeader(input).err == NoError || ReadHeader(input).err == Eof ==> |ReadHeader(input).rest| < |input|
  {}
}
