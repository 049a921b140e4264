/** The opaque pagination cursor: base64url (section 5 of RFC 4648) without its padding. */
module Cursor {
  import opened Types

  type Byte = b: int | 0 <= b < 256
  type Sextet = s: int | 0 <= s < 64

  function ToChar(s: Sextet): char {
    if s < 26 then 'A' + s as char
    else if s < 52 then 'a' + (s - 26) as char
    else if s < 62 then '0' + (s - 52) as char
    else if s == 62 then '-'
    else '_'
  }

  function FromChar(c: char): Option<Sextet> {
    if 'A' <= c <= 'Z' then Some(c as int - 'A' as int)
    else if 'a' <= c <= 'z' then Some(c as int - 'a' as int + 26)
    else if '0' <= c <= '9' then Some(c as int - '0' as int + 52)
    else if c == '-' then Some(62)
    else if c == '_' then Some(63)
    else None
  }

  lemma CharRoundTrip(s: Sextet)
    ensures FromChar(ToChar(s)) == Some(s) && ToChar(s) != '='
  {}

  /** base64.urlsafe_b64encode. */
  function Encode(raw: seq<Byte>): string
    decreases |raw|
  {
    if |raw| == 0 then ""
    else if |raw| == 1 then [ToChar(raw[0] / 4), ToChar(raw[0] % 4 * 16), '=', '=']
    else if |raw| == 2 then
      [ToChar(raw[0] / 4), ToChar(raw[0] % 4 * 16 + raw[1] / 16), ToChar(raw[1] % 16 * 4), '=']
    else
      [ToChar(raw[0] / 4), ToChar(raw[0] % 4 * 16 + raw[1] / 16), ToChar(raw[1] % 16 * 4 + raw[2] / 64), ToChar(raw[2] % 64)]
      + Encode(raw[3..])
  }

  /** base64.urlsafe_b64decode on whole quanta of the alphabet; padding may end the last quantum only. */
  function Decode(text: string): Option<seq<Byte>>
    decreases |text|
  {
    if |text| == 0 then Some([])
    else if |text| < 4 then None
    else
      var (a, b, c, d) := (FromChar(text[0]), FromChar(text[1]), FromChar(text[2]), FromChar(text[3]));
      if a == None || b == None then None
      else
        var first: Byte := a.value * 4 + b.value / 16;
        if |text| == 4 && text[2] == '=' && text[3] == '=' then Some([first])
        else if c == None then None
        else
          var second: Byte := b.value % 16 * 16 + c.value / 4;
          if |text| == 4 && text[3] == '=' then Some([first, second])
          else if d == None then None
          else
            var third: Byte := c.value % 4 * 64 + d.value;
            var rest := Decode(text[4..]);
            if rest == None then None else Some([first, second, third] + rest.value)
  }

  /** str.rstrip("="). */
  function Strip(text: string): string
    decreases |text|
  {
    if text != "" && text[|text| - 1] == '=' then Strip(text[..|text| - 1]) else text
  }

  function Equals(n: nat): string { if n == 0 then "" else Equals(n - 1) + "=" }

  /** -len(cursor) % 4, Python's remainder being never negative. */
  function Missing(n: nat): nat { (-(n as int)) % 4 }

  function EncodeCursor(raw: seq<Byte>): string { Strip(Encode(raw)) }

  function DecodeCursor(cursor: string): Option<seq<Byte>> { Decode(cursor + Equals(Missing(|cursor|))) }

  /** Splitting bytes into sextets loses nothing. */
  lemma Regroup(x: Byte, y: Byte)
    ensures x / 4 * 4 + (x % 4 * 16 + y / 16) / 16 == x
    ensures (x % 4 * 16 + y / 16) % 16 * 16 + y % 16 * 4 / 4 == y
    ensures forall z: Byte :: (y % 16 * 4 + z / 64) / 4 == y % 16 && (y % 16 * 4 + z / 64) % 4 * 64 + z % 64 == z
  {}

  lemma DecodeOne(raw: seq<Byte>)
    requires |raw| == 1
    ensures Decode(Encode(raw)) == Some(raw)
  {
    CharRoundTrip(raw[0] / 4);
    CharRoundTrip(raw[0] % 4 * 16);
    Regroup(raw[0], 0);
    hide FromChar, ToChar;
    assert Decode(Encode(raw)) == Some([raw[0]]);
    assert raw == [raw[0]];
  }

  /** The last quantum of three sextets. */
  lemma DecodeTail(text: string, a: Sextet, b: Sextet, c: Sextet, x: Byte, y: Byte)
    requires |text| == 4 && FromChar(text[0]) == Some(a) && FromChar(text[1]) == Some(b) && FromChar(text[2]) == Some(c)
    requires text[2] != '=' && text[3] == '='
    requires x == a * 4 + b / 16 && y == b % 16 * 16 + c / 4
    ensures Decode(text) == Some([x, y])
  {}

  lemma DecodeTwo(raw: seq<Byte>)
    requires |raw| == 2
    ensures Decode(Encode(raw)) == Some(raw)
  {
    var a, b, c := raw[0] / 4, raw[0] % 4 * 16 + raw[1] / 16, raw[1] % 16 * 4;
    CharRoundTrip(a);
    CharRoundTrip(b);
    CharRoundTrip(c);
    Regroup(raw[0], raw[1]);
    assert Encode(raw) == [ToChar(a), ToChar(b), ToChar(c), '='];
    hide FromChar, ToChar, Decode, Encode;
    DecodeTail([ToChar(a), ToChar(b), ToChar(c), '='], a, b, c, raw[0], raw[1]);
    assert raw == [raw[0], raw[1]];
  }

  /** A whole quantum in front of a text gives its three bytes in front of the text's. */
  lemma DecodeThree(x: Byte, y: Byte, z: Byte, rest: string)
    requires Decode(rest).Some?
    ensures var quantum := [ToChar(x / 4), ToChar(x % 4 * 16 + y / 16), ToChar(y % 16 * 4 + z / 64), ToChar(z % 64)];
      Decode(quantum + rest) == Some([x, y, z] + Decode(rest).value)
  {
    CharRoundTrip(x / 4);
    CharRoundTrip(x % 4 * 16 + y / 16);
    CharRoundTrip(y % 16 * 4 + z / 64);
    CharRoundTrip(z % 64);
    Regroup(x, y);
    hide FromChar, ToChar;
    var quantum := [ToChar(x / 4), ToChar(x % 4 * 16 + y / 16), ToChar(y % 16 * 4 + z / 64), ToChar(z % 64)];
    assert (quantum + rest)[4..] == rest;
  }

  lemma {:induction false} DecodeEncode(raw: seq<Byte>)
    ensures Decode(Encode(raw)) == Some(raw)
    decreases |raw|
  {
    if |raw| >= 3 {
      DecodeEncode(raw[3..]);
      DecodeThree(raw[0], raw[1], raw[2], Encode(raw[3..]));
      assert raw == [raw[0], raw[1], raw[2]] + raw[3..];
    } else if |raw| == 2 {
      DecodeTwo(raw);
    } else if |raw| == 1 {
      DecodeOne(raw);
    }
  }

  lemma {:induction false} StripEquals(a: string, n: nat)
    requires a != "" && a[|a| - 1] != '='
    ensures Strip(a + Equals(n)) == a
    decreases n
  {
    if n == 0 {
      assert a + Equals(n) == a;
    } else {
      var text := a + Equals(n);
      assert text[..|text| - 1] == a + Equals(n - 1) && text[|text| - 1] == '=';
      StripEquals(a, n - 1);
    }
  }

  /** The padding is what stripping removes, and its length is what the length modulo four asks for. */
  lemma {:induction false} StripEncode(raw: seq<Byte>)
    ensures Encode(raw) == Strip(Encode(raw)) + Equals(Missing(|Strip(Encode(raw))|))
    decreases |raw|
  {
    var text := Encode(raw);
    if |raw| == 1 {
      CharRoundTrip(raw[0] % 4 * 16);
      assert Equals(2) == Equals(1) + "=" == "==";
      assert text == text[..2] + Equals(2);
      StripEquals(text[..2], 2);
    } else if |raw| == 2 {
      CharRoundTrip(raw[1] % 16 * 4);
      assert Equals(1) == "=";
      assert text == text[..3] + Equals(1);
      StripEquals(text[..3], 1);
    } else if |raw| >= 3 {
      StripEncode(raw[3..]);
      CharRoundTrip(raw[2] % 64);
      assert text == text[..4] + Encode(raw[3..]);
      StripPadded(text[..4], Encode(raw[3..]));
    }
  }

  lemma StripPadded(quantum: string, rest: string)
    requires |quantum| == 4 && quantum[3] != '='
    requires rest == Strip(rest) + Equals(Missing(|Strip(rest)|))
    ensures quantum + rest == Strip(quantum + rest) + Equals(Missing(|Strip(quantum + rest)|))
  {
    StripConcat(quantum, rest);
    assert Missing(4 + |Strip(rest)|) == Missing(|Strip(rest)|);
    assert quantum + rest == quantum + Strip(rest) + Equals(Missing(|Strip(rest)|));
  }

  lemma {:induction false} StripConcat(a: string, b: string)
    requires a != "" && a[|a| - 1] != '='
    ensures Strip(a + b) == a + Strip(b)
    decreases |b|
  {
    if b == "" {
      assert a + b == a;
    } else {
      assert (a + b)[..|a + b| - 1] == a + b[..|b| - 1];
      if b[|b| - 1] == '=' {
        StripConcat(a, b[..|b| - 1]);
      }
    }
  }

  /** The URL and filename safe alphabet of section 5 of RFC 4648: the letters, the digits, minus and underscore. */
  lemma AlphabetIs(s: Sextet)
    ensures ToChar(0) == 'A' && ToChar(26) == 'a' && ToChar(52) == '0' && ToChar(62) == '-' && ToChar(63) == '_'
    ensures s !in {25, 51, 61, 62, 63} ==> ToChar(s + 1) as int == ToChar(s) as int + 1
  {}

  /** The 24 bits of three bytes, regrouped by six. */
  lemma SameBits(x: Byte, y: Byte, z: Byte)
    ensures (x / 4) as int * 262144 + (x % 4 * 16 + y / 16) as int * 4096 + (y % 16 * 4 + z / 64) as int * 64 + (z % 64) as int
      == x as int * 65536 + y as int * 256 + z as int
  {
    assert x == 4 * (x / 4) + x % 4 && y == 16 * (y / 16) + y % 16 && z == 64 * (z / 64) + z % 64;
  }

  /** Three bytes become four characters, most significant bits first, and the rest of the bytes follow. */
  lemma QuantumIs(raw: seq<Byte>) returns (a: Sextet, b: Sextet, c: Sextet, d: Sextet)
    requires 3 <= |raw|
    ensures Encode(raw) == [ToChar(a), ToChar(b), ToChar(c), ToChar(d)] + Encode(raw[3..])
    ensures a as int * 262144 + b as int * 4096 + c as int * 64 + d as int
      == raw[0] as int * 65536 + raw[1] as int * 256 + raw[2] as int
  {
    hide ToChar;
    a, b, c, d := raw[0] / 4, raw[0] % 4 * 16 + raw[1] / 16, raw[1] % 16 * 4 + raw[2] / 64, raw[2] % 64;
    SameBits(raw[0], raw[1], raw[2]);
  }

  /** A shorter end is encoded as if filled up with zero bytes, and padded to four characters. */
  lemma LastQuantumIs(raw: seq<Byte>) returns (a: Sextet, b: Sextet, c: Sextet)
    requires |raw| == 1 || |raw| == 2
    ensures Encode(raw) == [ToChar(a), ToChar(b)] + (if |raw| == 1 then ['=', '='] else [ToChar(c), '='])
    ensures a as int * 262144 + b as int * 4096 + c as int * 64
      == raw[0] as int * 65536 + (if |raw| == 1 then 0 else raw[1] as int * 256)
  {
    hide ToChar;
    var y: Byte := if |raw| == 1 then 0 else raw[1];
    a, b, c := raw[0] / 4, raw[0] % 4 * 16 + y / 16, y % 16 * 4;
    SameBits(raw[0], y, 0);
  }

  /** For every byte string: encode, strip the padding, restore it from the length, decode: the same bytes. */
  lemma CursorRoundTrip(raw: seq<Byte>)
    ensures DecodeCursor(EncodeCursor(raw)) == Some(raw)
  {
    StripEncode(raw);
    DecodeEncode(raw);
  }

  /** Hence different positions have different cursors. */
  lemma CursorsAreDistinct(a: seq<Byte>, b: seq<Byte>)
    requires EncodeCursor(a) == EncodeCursor(b)
    ensures a == b
  {
    CursorRoundTrip(a);
    CursorRoundTrip(b);
  }

  /** Characters of the alphabet, one more than whole quanta, decode to nothing: no padding can complete it. */
  lemma {:induction false} BadLengthIsRefused(text: string)
    requires |text| % 4 == 1 && forall i :: 0 <= i < |text| ==> FromChar(text[i]).Some?
    ensures DecodeCursor(text) == None
    decreases |text|
  {
    assert Missing(|text|) == 3;
    assert Equals(3) == "===";
    var padded := text + Equals(3);
    if |text| > 4 {
      BadLengthIsRefused(text[4..]);
      assert padded[4..] == text[4..] + Equals(3);
    }
  }
}
