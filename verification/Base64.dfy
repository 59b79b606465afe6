/** Base64 as Python's `base64` module does it (sections 4 and 5 of RFC 4648): the encoder,
    and the character-by-character decoder in its strict and its lenient mode. */
module Base64 {
  import opened Common

  type Byte = b: nat | b < 256
  type Sextet = v: nat | v < 64

  const PAD := '='

  /** The character for a value; `url` selects the URL and filename safe alphabet. */
  function Symbol(url: bool, v: Sextet): char {
    if v < 26 then (v + 65) as char
    else if v < 52 then (v + 71) as char
    else if v < 62 then (v - 4) as char
    else if v == 62 then if url then '-' else '+'
    else if url then '_' else '/'
  }

  /** The value of a character. The URL-safe decoder translates "-_" to "+/" first, so it
      reads both spellings. */
  function Value(url: bool, c: char): Option<Sextet> {
    if 'A' <= c <= 'Z' then Some(c as int - 65)
    else if 'a' <= c <= 'z' then Some(c as int - 71)
    else if '0' <= c <= '9' then Some(c as int + 4)
    else if c == '+' || (url && c == '-') then Some(62)
    else if c == '/' || (url && c == '_') then Some(63)
    else None
  }

  function Encode(url: bool, bytes: seq<Byte>): string
    decreases |bytes|
  {
    if |bytes| == 0 then ""
    else if |bytes| == 1 then
      [Symbol(url, bytes[0] / 4), Symbol(url, bytes[0] % 4 * 16), PAD, PAD]
    else if |bytes| == 2 then
      [Symbol(url, bytes[0] / 4), Symbol(url, bytes[0] % 4 * 16 + bytes[1] / 16), Symbol(url, bytes[1] % 16 * 4), PAD]
    else
      [Symbol(url, bytes[0] / 4), Symbol(url, bytes[0] % 4 * 16 + bytes[1] / 16),
       Symbol(url, bytes[1] % 16 * 4 + bytes[2] / 64), Symbol(url, bytes[2] % 64)]
      + Encode(url, bytes[3..])
  }

  /** The bits carried from one character to the next. */
  predicate CarryOk(quad: nat, carry: nat) {
    (quad == 1 && carry < 64) || (quad == 2 && carry < 16) || (quad == 3 && carry < 4) || quad == 0
  }

  /** The decoder, from the position `quad` within a group of four characters on. */
  function Scan(
    url: bool, strict: bool, text: string, quad: nat, carry: nat, pads: nat, padded: bool): Option<seq<Byte>>
    requires CarryOk(quad, carry)
    decreases |text|
  {
    if text == "" then if quad == 0 then Some([]) else None
    else if text[0] == PAD then
      if strict && quad == 0 then None
      else if quad >= 2 && quad + pads + 1 >= 4 then if strict && |text| > 1 then None else Some([])
      else Scan(url, strict, text[1..], quad, carry, if quad >= 2 then pads + 1 else pads, true)
    else
      var v := Value(url, text[0]);
      if v.None? then if strict then None else Scan(url, strict, text[1..], quad, carry, pads, padded)
      else if strict && padded then None
      else if quad == 0 then Scan(url, strict, text[1..], 1, v.value, 0, padded)
      else if quad == 1 then Prepend(carry * 4 + v.value / 16, Scan(url, strict, text[1..], 2, v.value % 16, 0, padded))
      else if quad == 2 then Prepend(carry * 16 + v.value / 4, Scan(url, strict, text[1..], 3, v.value % 4, 0, padded))
      else Prepend(carry * 64 + v.value, Scan(url, strict, text[1..], 0, 0, 0, padded))
  }

  function Prepend(b: Byte, rest: Option<seq<Byte>>): Option<seq<Byte>> {
    if rest.Some? then Some([b] + rest.value) else None
  }

  function Decode(url: bool, strict: bool, text: string): Option<seq<Byte>> { Scan(url, strict, text, 0, 0, 0, false) }

  // ---------------------------------------------------------------- the alphabets

  /** Tables 1 and 2 of RFC 4648. */
  lemma Alphabets(url: bool, v: Sextet)
    ensures v < 26 ==> Symbol(url, v) == "ABCDEFGHIJKLMNOPQRSTUVWXYZ"[v]
    ensures 26 <= v < 52 ==> Symbol(url, v) == "abcdefghijklmnopqrstuvwxyz"[v - 26]
    ensures 52 <= v < 62 ==> Symbol(url, v) == "0123456789"[v - 52]
    ensures v >= 62 ==> Symbol(url, v) == (if url then "-_" else "+/")[v - 62]
  {
  }

  /** The characters of a group, read as a number in base 64, are its bytes read as one in base 256: all the bits, the
      first ones first. The last group may lack a byte or two, and is filled up with zero bits and padding. */
  lemma GroupIsNumber(url: bool, bytes: seq<Byte>)
    returns (v0: Sextet, v1: Sextet, v2: Sextet, v3: Sextet)
    requires bytes != []
    ensures |Encode(url, bytes)| >= 4
    ensures Encode(url, bytes)[..2] == [Symbol(url, v0), Symbol(url, v1)]
    ensures |bytes| == 1 ==> Encode(url, bytes)[2..] == "==" && v0 * 64 + v1 == 16 * bytes[0] as int
    ensures |bytes| == 2 ==>
      && Encode(url, bytes)[2..] == [Symbol(url, v2), '=']
      && (v0 * 64 + v1) * 64 + v2 == 4 * (256 * bytes[0] as int + bytes[1])
    ensures |bytes| >= 3 ==>
      && Encode(url, bytes)[2..] == [Symbol(url, v2), Symbol(url, v3)] + Encode(url, bytes[3..])
      && ((v0 * 64 + v1) * 64 + v2) * 64 + v3 == 256 * (256 * bytes[0] as int + bytes[1]) + bytes[2]
  {
    var a, b, c: Byte :=
      bytes[0], if |bytes| > 1 then bytes[1] else 0, if |bytes| > 2 then bytes[2] else 0;
    v0, v1, v2, v3 := a / 4, a % 4 * 16 + b / 16, b % 16 * 4 + c / 64, c % 64;
    OneByte(a);
    TwoBytes(a, b);
    ThreeBytes(a, b, c);
  }

  lemma OneByte(a: Byte)
    ensures a / 4 * 64 + a % 4 * 16 == 16 * a as int
  {
  }

  lemma TwoBytes(a: Byte, b: Byte)
    ensures (a / 4 * 64 + (a % 4 * 16 + b / 16)) * 64 + b % 16 * 4 == 4 * (256 * a as int + b)
  {
    OneByte(a);
  }

  lemma ThreeBytes(a: Byte, b: Byte, c: Byte)
    ensures ((a / 4 * 64 + (a % 4 * 16 + b / 16)) * 64 + (b % 16 * 4 + c / 64)) * 64 + c % 64 ==
      256 * (256 * a as int + b) + c
  {
    TwoBytes(a, b);
  }

  // ---------------------------------------------------------------- round trip

  lemma ValueOfSymbol(url: bool, v: Sextet)
    ensures Value(url, Symbol(url, v)) == Some(v) && Symbol(url, v) != PAD
  {
  }

  /** One alphabet character consumed by the decoder. */
  lemma ScanSymbol(url: bool, strict: bool, v: Sextet, rest: string, quad: nat, carry: nat)
    requires CarryOk(quad, carry) && quad < 4
    ensures Scan(url, strict, [Symbol(url, v)] + rest, quad, carry, 0, false) ==
      if quad == 0 then Scan(url, strict, rest, 1, v, 0, false)
      else if quad == 1 then Prepend(carry * 4 + v / 16, Scan(url, strict, rest, 2, v % 16, 0, false))
      else if quad == 2 then Prepend(carry * 16 + v / 4, Scan(url, strict, rest, 3, v % 4, 0, false))
      else Prepend(carry * 64 + v, Scan(url, strict, rest, 0, 0, 0, false))
  {
    ValueOfSymbol(url, v);
    assert ([Symbol(url, v)] + rest)[1..] == rest;
  }

  /** The four values of a group determine its three bytes. */
  lemma Repacked(a: Byte, b: Byte, c: Byte)
    ensures var v0, v1, v2, v3 := a / 4, a % 4 * 16 + b / 16, b % 16 * 4 + c / 64, c % 64;
      && v0 < 64 && v1 < 64 && v2 < 64
      && v0 * 4 + v1 / 16 == a && v1 % 16 * 16 + v2 / 4 == b && v2 % 4 * 64 + v3 == c
  {
  }

  /** A whole group of four characters gives three bytes. */
  lemma ScanGroup(url: bool, strict: bool, a: Byte, b: Byte, c: Byte, rest: string)
    ensures Scan(url, strict,
                 [Symbol(url, a / 4), Symbol(url, a % 4 * 16 + b / 16), Symbol(url, b % 16 * 4 + c / 64),
                   Symbol(url, c % 64)]
                 + rest, 0, 0, 0, false) ==
      Prepend(a, Prepend(b, Prepend(c, Scan(url, strict, rest, 0, 0, 0, false))))
  {
    Repacked(a, b, c);
    var v0, v1, v2, v3: Sextet := a / 4, a % 4 * 16 + b / 16, b % 16 * 4 + c / 64, c % 64;
    var t3 := [Symbol(url, v3)] + rest;
    var t2 := [Symbol(url, v2)] + t3;
    var t1 := [Symbol(url, v1)] + t2;
    assert [Symbol(url, v0), Symbol(url, v1), Symbol(url, v2), Symbol(url, v3)] + rest == [Symbol(url, v0)] + t1;
    ScanSymbol(url, strict, v0, t1, 0, 0);
    ScanSymbol(url, strict, v1, t2, 1, v0);
    ScanSymbol(url, strict, v2, t3, 2, v1 % 16);
    ScanSymbol(url, strict, v3, rest, 3, v2 % 4);
  }

  lemma ScanLastTwo(url: bool, strict: bool, a: Byte, b: Byte)
    ensures Scan(url, strict,
                 [Symbol(url, a / 4), Symbol(url, a % 4 * 16 + b / 16), Symbol(url, b % 16 * 4), PAD], 0, 0, 0,
                   false) ==
      Some([a, b])
  {
    Repacked(a, b, 0);
    var v0, v1, v2: Sextet := a / 4, a % 4 * 16 + b / 16, b % 16 * 4;
    var t2 := [Symbol(url, v2)] + [PAD];
    var t1 := [Symbol(url, v1)] + t2;
    assert [Symbol(url, v0), Symbol(url, v1), Symbol(url, v2), PAD] == [Symbol(url, v0)] + t1;
    ScanSymbol(url, strict, v0, t1, 0, 0);
    ScanSymbol(url, strict, v1, t2, 1, v0);
    ScanSymbol(url, strict, v2, [PAD], 2, v1 % 16);
    assert [a] + ([b] + []) == [a, b];
  }

  lemma ScanLastOne(url: bool, strict: bool, a: Byte)
    ensures Scan(url, strict, [Symbol(url, a / 4), Symbol(url, a % 4 * 16), PAD, PAD], 0, 0, 0, false) == Some([a])
  {
    Repacked(a, 0, 0);
    var v0, v1: Sextet := a / 4, a % 4 * 16;
    var t1 := [Symbol(url, v1)] + [PAD, PAD];
    assert [Symbol(url, v0), Symbol(url, v1), PAD, PAD] == [Symbol(url, v0)] + t1;
    ScanSymbol(url, strict, v0, t1, 0, 0);
    ScanSymbol(url, strict, v1, [PAD, PAD], 1, v0);
    assert [PAD, PAD][1..] == [PAD];
    assert Scan(url, strict, [PAD], 2, v1 % 16, 1, true) == Some([]);
    assert Scan(url, strict, [PAD, PAD], 2, v1 % 16, 0, false) == Some([]);
    assert [a] + [] == [a];
  }

  /** Decoding undoes encoding, in both alphabets and both modes, for every byte string. */
  lemma {:induction false} RoundTrip(url: bool, strict: bool, bytes: seq<Byte>)
    ensures Decode(url, strict, Encode(url, bytes)) == Some(bytes)
    decreases |bytes|
  {
    if |bytes| == 0 {
    } else if |bytes| == 1 {
      ScanLastOne(url, strict, bytes[0]);
      assert bytes == [bytes[0]];
    } else if |bytes| == 2 {
      ScanLastTwo(url, strict, bytes[0], bytes[1]);
      assert bytes == [bytes[0], bytes[1]];
    } else {
      RoundTrip(url, strict, bytes[3..]);
      ScanGroup(url, strict, bytes[0], bytes[1], bytes[2], Encode(url, bytes[3..]));
      assert bytes == [bytes[0]] + ([bytes[1]] + ([bytes[2]] + bytes[3..]));
    }
  }

  // ---------------------------------------------------------------- padding off, padding on

  /** `rstrip("=")`. */
  function StripPads(text: string): (r: string)
    ensures r <= text
    ensures forall i :: |r| <= i < |text| ==> text[i] == PAD
    ensures r != "" ==> r[|r| - 1] != PAD
    decreases |text|
  {
    if text != "" && text[|text| - 1] == PAD then StripPads(text[..|text| - 1]) else text
  }

  function Pads(n: nat): string { seq(n, _ => PAD) }

  /** Padding to a multiple of four characters: `value + "=" * (-len(value) % 4)`. */
  function Repad(text: string): string { text + Pads((-|text|) % 4) }

  /** A multiple of four characters, with padding at most in the last two. */
  predicate Padded(e: string) { |e| % 4 == 0 && forall i :: 0 <= i < |e| - 2 ==> e[i] != PAD }

  lemma {:induction false} EncodedShape(url: bool, bytes: seq<Byte>)
    ensures Padded(Encode(url, bytes))
    decreases |bytes|
  {
    if |bytes| >= 3 {
      EncodedShape(url, bytes[3..]);
      ValueOfSymbol(url, bytes[0] / 4);
      ValueOfSymbol(url, bytes[0] % 4 * 16 + bytes[1] / 16);
      ValueOfSymbol(url, bytes[1] % 16 * 4 + bytes[2] / 64);
      ValueOfSymbol(url, bytes[2] % 64);
      var e, rest := Encode(url, bytes), Encode(url, bytes[3..]);
      assert forall i :: 4 <= i < |e| ==> e[i] == rest[i - 4];
    } else if |bytes| == 2 {
      ValueOfSymbol(url, bytes[0] / 4);
      ValueOfSymbol(url, bytes[0] % 4 * 16 + bytes[1] / 16);
    } else if |bytes| == 1 {
      ValueOfSymbol(url, bytes[0] / 4);
      ValueOfSymbol(url, bytes[0] % 4 * 16);
    }
  }

  /** The number of characters that were stripped follows from the length of the rest. */
  lemma MissingPads(n: nat, missing: nat)
    requires n % 4 == 0 && missing <= 2 && missing <= n
    ensures (-(n - missing)) % 4 == missing
  {
  }

  lemma PadsRestored(e: string)
    requires Padded(e)
    ensures Repad(StripPads(e)) == e
  {
    var core := StripPads(e);
    var missing := |e| - |core|;
    assert |core| < |e| ==> e[|core|] == PAD;
    MissingPads(|e|, missing);
    assert e == core + e[|core|..];
    assert e[|core|..] == Pads(missing);
  }

  /** The padding of an encoding can be dropped and restored from the length alone. */
  lemma {:induction false} PaddingRestored(url: bool, bytes: seq<Byte>)
    ensures Repad(StripPads(Encode(url, bytes))) == Encode(url, bytes)
  {
    EncodedShape(url, bytes);
    PadsRestored(Encode(url, bytes));
  }

  // ---------------------------------------------------------------- rejected text

  predicate Alphabetic(url: bool, c: char) { Value(url, c).Some? || c == PAD }

  lemma {:induction false} EncodedAlphabet(url: bool, bytes: seq<Byte>)
    ensures forall i :: 0 <= i < |Encode(url, bytes)| ==> Alphabetic(url, Encode(url, bytes)[i])
    decreases |bytes|
  {
    forall v: Sextet
      ensures Value(url, Symbol(url, v)).Some?
    {
      ValueOfSymbol(url, v);
    }
    if |bytes| >= 3 {
      EncodedAlphabet(url, bytes[3..]);
    }
  }

  /** In lenient mode a foreign character is as if it were not there. */
  lemma {:induction false} ForeignCharacterSkipped(
    url: bool, before: string, c: char, rest: string, quad: nat, carry: nat, pads: nat, padded: bool)
    requires CarryOk(quad, carry) && !Alphabetic(url, c)
    ensures Scan(url, false, before + [c] + rest, quad, carry, pads, padded) ==
      Scan(url, false, before + rest, quad, carry, pads, padded)
    decreases |before|
  {
    if before == "" {
      assert (before + [c] + rest)[1..] == rest && before + rest == rest;
    } else {
      var tail := before[1..];
      assert (before + [c] + rest)[1..] == tail + [c] + rest && (before + rest)[1..] == tail + rest;
      if before[0] == PAD {
        if quad < 2 || quad + pads + 1 < 4 {
          ForeignCharacterSkipped(url, tail, c, rest, quad, carry, if quad >= 2 then pads + 1 else pads, true);
        }
      } else {
        var v := Value(url, before[0]);
        if v.None? {
          ForeignCharacterSkipped(url, tail, c, rest, quad, carry, pads, padded);
        } else {
          var quad' := if quad == 3 then 0 else quad + 1;
          var carry' := if quad == 0 then v.value else if quad == 1 then v.value % 16
            else if quad == 2 then v.value % 4 else 0;
          ForeignCharacterSkipped(url, tail, c, rest, quad', carry', 0, padded);
        }
      }
    }
  }

  /** In strict mode one foreign character anywhere is fatal. */
  lemma {:induction false} ForeignCharacterFatal(
    url: bool, text: string, quad: nat, carry: nat, pads: nat, padded: bool, i: nat)
    requires CarryOk(quad, carry) && i < |text| && !Alphabetic(url, text[i])
    ensures Scan(url, true, text, quad, carry, pads, padded).None?
    decreases |text|
  {
    if text[0] == PAD {
      if quad != 0 && !(quad >= 2 && quad + pads + 1 >= 4) {
        ForeignCharacterFatal(url, text[1..], quad, carry, if quad >= 2 then pads + 1 else pads, true, i - 1);
      }
    } else {
      var v := Value(url, text[0]);
      if v.Some? && !padded {
        if quad == 0 {
          ForeignCharacterFatal(url, text[1..], 1, v.value, 0, padded, i - 1);
        } else if quad == 1 {
          ForeignCharacterFatal(url, text[1..], 2, v.value % 16, 0, padded, i - 1);
        } else if quad == 2 {
          ForeignCharacterFatal(url, text[1..], 3, v.value % 4, 0, padded, i - 1);
        } else {
          ForeignCharacterFatal(url, text[1..], 0, 0, 0, padded, i - 1);
        }
      }
    }
  }
}
