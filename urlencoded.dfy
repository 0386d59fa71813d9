/** The application/x-www-form-urlencoded serializer that `URLSearchParams`
    uses for `toString()` (section 5.2 of the WHATWG URL Standard), with the
    matching parser (section 5.1) as its inverse. Names and values are encoded
    as UTF-8, and every byte outside the ASCII alphanumerics and `*-._` is
    percent-encoded, except the space, which becomes `+`. */
module FormUrlEncoded {
  import opened Strings

  newtype byte = x: int | 0 <= x < 256

  /** The UTF-8 encoding of one Unicode scalar value. */
  function Utf8(c: char): (bytes: seq<byte>)
    ensures 1 <= |bytes| <= 4
    ensures (c as int < 0x80) <==> |bytes| == 1
    ensures c as int < 0x80 ==> bytes == [c as int as byte]
  {
    var cp := c as int;
    if cp < 0x80 then [cp as byte]
    else if cp < 0x800 then [(0xC0 + cp / 0x40) as byte, (0x80 + cp % 0x40) as byte]
    else if cp < 0x1_0000 then
      [(0xE0 + cp / 0x1000) as byte, (0x80 + (cp / 0x40) % 0x40) as byte, (0x80 + cp % 0x40) as byte]
    else
      [(0xF0 + cp / 0x4_0000) as byte, (0x80 + (cp / 0x1000) % 0x40) as byte,
       (0x80 + (cp / 0x40) % 0x40) as byte, (0x80 + cp % 0x40) as byte]
  }

  function Utf8String(s: string): (bytes: seq<byte>)
    ensures |s| <= |bytes| <= 4 * |s|
  {
    if s == [] then [] else Utf8(s[0]) + Utf8String(s[1..])
  }

  /** The bytes the serializer leaves as they are. */
  predicate Unreserved(b: byte) {
    || (0x30 <= b <= 0x39) || (0x41 <= b <= 0x5A) || (0x61 <= b <= 0x7A)
    || b == 0x2A || b == 0x2D || b == 0x2E || b == 0x5F
  }

  /** An upper-case hexadecimal digit. */
  function HexDigit(d: nat): (c: char)
    requires d < 16
  {
    if d < 10 then ('0' as int + d) as char else ('A' as int + d - 10) as char
  }

  predicate IsHex(c: char) {
    ('0' <= c <= '9') || ('A' <= c <= 'F') || ('a' <= c <= 'f')
  }

  function HexValue(c: char): (d: nat)
    requires IsHex(c)
    ensures d < 16
  {
    if '0' <= c <= '9' then c as int - '0' as int
    else if 'A' <= c <= 'F' then c as int - 'A' as int + 10
    else c as int - 'a' as int + 10
  }

  /** One byte, serialized. */
  function EncodeByte(b: byte): (s: string)
    ensures 1 <= |s| <= 3
  {
    if Unreserved(b) then [b as int as char]
    else if b == 0x20 then "+"
    else ['%', HexDigit(b as int / 16), HexDigit(b as int % 16)]
  }

  function EncodeBytes(bytes: seq<byte>): (s: string)
    ensures |bytes| <= |s| <= 3 * |bytes|
  {
    if bytes == [] then [] else EncodeByte(bytes[0]) + EncodeBytes(bytes[1..])
  }

  /** A name or a value, serialized. */
  function Encode(s: string): string {
    EncodeBytes(Utf8String(s))
  }

  /** `URLSearchParams.toString()`: `name=value` pairs joined by `&`. */
  function Serialize(pairs: seq<(string, string)>): (s: string)
    ensures s == [] <==> pairs == []
  {
    if pairs == [] then []
    else if |pairs| == 1 then Encode(pairs[0].0) + "=" + Encode(pairs[0].1)
    else Encode(pairs[0].0) + "=" + Encode(pairs[0].1) + "&" + Serialize(pairs[1..])
  }

  // ---------------------------------------------------------------------------
  // The parser: the inverse the serializer is designed against
  // ---------------------------------------------------------------------------

  /** Percent-decoding with `+` read as a space; a `%` not followed by two hex
      digits stands for itself, and any other character for its UTF-8 bytes. */
  function Decode(s: string): seq<byte>
    decreases |s|
  {
    if s == [] then []
    else if s[0] == '+' then [0x20] + Decode(s[1..])
    else if s[0] == '%' && |s| >= 3 && IsHex(s[1]) && IsHex(s[2]) then
      [(HexValue(s[1]) * 16 + HexValue(s[2])) as byte] + Decode(s[3..])
    else Utf8(s[0]) + Decode(s[1..])
  }

  /** One `&`-separated field, split at its first `=`. */
  function ParseField(field: string): (seq<byte>, seq<byte>) {
    var i := FindChar(field, '=');
    if i == -1 then (Decode(field), []) else (Decode(field[..i]), Decode(field[i + 1..]))
  }

  /** The parser: the non-empty `&`-separated fields, each as a name and a value. */
  function Parse(s: string): seq<(seq<byte>, seq<byte>)> {
    ParseFields(Split(s, '&'))
  }

  function ParseFields(fields: seq<string>): seq<(seq<byte>, seq<byte>)> {
    if fields == [] then []
    else if fields[0] == [] then ParseFields(fields[1..])
    else [ParseField(fields[0])] + ParseFields(fields[1..])
  }

  /** What a pair becomes after serializing and parsing: its UTF-8 bytes. */
  function PairBytes(pairs: seq<(string, string)>): seq<(seq<byte>, seq<byte>)> {
    if pairs == [] then [] else [(Utf8String(pairs[0].0), Utf8String(pairs[0].1))] + PairBytes(pairs[1..])
  }

  // ---------------------------------------------------------------------------
  // Lemmas
  // ---------------------------------------------------------------------------

  lemma HexRoundTrip(b: byte)
    ensures IsHex(HexDigit(b as int / 16)) && IsHex(HexDigit(b as int % 16))
    ensures HexValue(HexDigit(b as int / 16)) * 16 + HexValue(HexDigit(b as int % 16)) == b as int
  {
  }

  /** Decoding the serialization of one byte followed by anything yields that
      byte followed by the decoding of the rest. */
  lemma DecodeEncodeByte(b: byte, rest: string)
    ensures Decode(EncodeByte(b) + rest) == [b] + Decode(rest)
  {
    var s := EncodeByte(b) + rest;
    if Unreserved(b) {
      assert s[0] == b as int as char && s[1..] == rest;
    } else if b == 0x20 {
      assert s[0] == '+' && s[1..] == rest;
    } else {
      HexRoundTrip(b);
      assert s[0] == '%' && s[3..] == rest;
    }
  }

  /** The parser's decoding undoes the serializer's encoding, byte for byte. */
  lemma {:induction false} DecodeEncodeBytes(bytes: seq<byte>)
    ensures Decode(EncodeBytes(bytes)) == bytes
  {
    if bytes != [] {
      DecodeEncodeByte(bytes[0], EncodeBytes(bytes[1..]));
      DecodeEncodeBytes(bytes[1..]);
    }
  }

  /** A serialized byte never holds the separators `&` and `=`. */
  lemma {:induction false} EncodedHasNoSeparators(bytes: seq<byte>)
    ensures '&' !in EncodeBytes(bytes) && '=' !in EncodeBytes(bytes)
  {
    if bytes != [] {
      var b := bytes[0];
      assert '&' !in EncodeByte(b) && '=' !in EncodeByte(b);
      EncodedHasNoSeparators(bytes[1..]);
    }
  }

  /** Splitting at a separator that first occurs right after `head`. */
  lemma SplitAfter(head: string, tail: string, separator: char)
    requires separator !in head
    ensures Split(head + [separator] + tail, separator) == [head] + Split(tail, separator)
  {
    var s := head + [separator] + tail;
    var i := FindChar(s, separator);
    assert s[|head|] == separator;
    assert s[..|head|] == head;
    assert i == |head|;
    assert s[i + 1..] == tail;
  }

  /** The serialization of one pair splits back at its `=`. */
  lemma ParseOneField(name: string, value: string)
    ensures ParseField(Encode(name) + "=" + Encode(value)) == (Utf8String(name), Utf8String(value))
  {
    EncodedHasNoSeparators(Utf8String(name));
    DecodeEncodeBytes(Utf8String(name));
    DecodeEncodeBytes(Utf8String(value));
    var field := Encode(name) + "=" + Encode(value);
    assert field == Encode(name) + ['='] + Encode(value);
    var i := FindChar(field, '=');
    assert field[|Encode(name)|] == '=';
    assert field[..i] == Encode(name) && field[i + 1..] == Encode(value);
  }

  /** The serializer's output parses back to the UTF-8 bytes of every name and
      value, in order: no pair is lost, split or merged. */
  lemma {:induction false} ParseSerialize(pairs: seq<(string, string)>)
    ensures Parse(Serialize(pairs)) == PairBytes(pairs)
  {
    if pairs == [] {
      assert Split([], '&') == [[]];
    } else {
      var field := Encode(pairs[0].0) + "=" + Encode(pairs[0].1);
      EncodedHasNoSeparators(Utf8String(pairs[0].0));
      EncodedHasNoSeparators(Utf8String(pairs[0].1));
      assert '&' !in field;
      ParseOneField(pairs[0].0, pairs[0].1);
      if |pairs| == 1 {
        assert FindChar(field, '&') == -1;
        assert Split(field, '&') == [field];
        assert field != [] && [field][1..] == [];
        assert ParseFields([field]) == [ParseField(field)] + ParseFields([]);
        assert PairBytes(pairs[1..]) == [];
      } else {
        SplitAfter(field, Serialize(pairs[1..]), '&');
        assert Serialize(pairs) == field + ['&'] + Serialize(pairs[1..]);
        ParseSerialize(pairs[1..]);
        assert Split(Serialize(pairs), '&')[1..] == Split(Serialize(pairs[1..]), '&');
      }
    }
  }
}
