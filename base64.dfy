/**
 * `btoa`: the base64 encoding of section 4 of RFC 4648 (alphabet "A"-"Z", "a"-"z",
 * "0"-"9", "+", "/", padded with "=") applied to a string whose characters are read
 * as Latin-1 bytes. `btoa` rejects a string holding a character above U+00FF.
 */
module Base64 {
  import opened Results

  type Byte = x: int | 0 <= x < 256

  /** The name of the exception `btoa` throws on a character it cannot encode. */
  const InvalidCharacterError: string := "InvalidCharacterError"

  /** The character that encodes the 6-bit value `v`. */
  function Sextet(v: nat): (c: char)
    requires v < 64
    ensures c != '='
  {
    if v < 26 then ('A' as int + v) as char
    else if v < 52 then ('a' as int + (v - 26)) as char
    else if v < 62 then ('0' as int + (v - 52)) as char
    else if v == 62 then '+'
    else '/'
  }

  /** The 6-bit value a character of the alphabet encodes; `None` off the alphabet. */
  function SextetValue(c: char): (r: Option<nat>)
    ensures r.Some? ==> r.value < 64 && Sextet(r.value) == c
  {
    if 'A' <= c <= 'Z' then Some(c as int - 'A' as int)
    else if 'a' <= c <= 'z' then Some(c as int - 'a' as int + 26)
    else if '0' <= c <= '9' then Some(c as int - '0' as int + 52)
    else if c == '+' then Some(62)
    else if c == '/' then Some(63)
    else None
  }

  lemma SextetRoundTrip(v: nat)
    requires v < 64
    ensures SextetValue(Sextet(v)) == Some(v)
  {
  }

  predicate InAlphabet(c: char) {
    SextetValue(c).Some?
  }

  /** Encodes a group of one to three bytes into four characters; a short group is
      padded with "==" or "=". */
  function EncodeGroup(b: seq<Byte>): (q: string)
    requires 1 <= |b| <= 3
    ensures |q| == 4
    ensures forall i :: 0 <= i < 4 ==> InAlphabet(q[i]) || q[i] == '='
  {
    SextetRoundTrip(b[0] / 4);
    if |b| == 1 then
      SextetRoundTrip(b[0] % 4 * 16);
      [Sextet(b[0] / 4), Sextet(b[0] % 4 * 16), '=', '=']
    else if |b| == 2 then
      SextetRoundTrip(b[0] % 4 * 16 + b[1] / 16); SextetRoundTrip(b[1] % 16 * 4);
      [Sextet(b[0] / 4), Sextet(b[0] % 4 * 16 + b[1] / 16), Sextet(b[1] % 16 * 4), '=']
    else
      SextetRoundTrip(b[0] % 4 * 16 + b[1] / 16);
      SextetRoundTrip(b[1] % 16 * 4 + b[2] / 64); SextetRoundTrip(b[2] % 64);
      [Sextet(b[0] / 4), Sextet(b[0] % 4 * 16 + b[1] / 16),
       Sextet(b[1] % 16 * 4 + b[2] / 64), Sextet(b[2] % 64)]
  }

  /** Encodes three bytes into four characters at a time. */
  function Encode(b: seq<Byte>): (s: string)
    ensures |s| == 4 * ((|b| + 2) / 3)
    ensures forall i :: 0 <= i < |s| ==> InAlphabet(s[i]) || s[i] == '='
    decreases |b|
  {
    if |b| == 0 then ""
    else if |b| <= 3 then EncodeGroup(b)
    else
      var head, tail := EncodeGroup(b[..3]), Encode(b[3..]);
      assert (|b| + 2) / 3 == (|b| - 1) / 3 + 1;
      assert forall i :: 4 <= i < 4 + |tail| ==> (head + tail)[i] == tail[i - 4];
      head + tail
  }

  /** The arithmetic of one full group: three bytes split into four sextets and
      joined again. */
  lemma RegroupThree(b0: Byte, b1: Byte, b2: Byte, w: int, x: int, y: int, z: int)
    requires w == b0 / 4 && x == b0 % 4 * 16 + b1 / 16 && y == b1 % 16 * 4 + b2 / 64 && z == b2 % 64
    ensures 0 <= w < 64 && 0 <= x < 64 && 0 <= y < 64 && 0 <= z < 64
    ensures w * 4 + x / 16 == b0 && x % 16 * 16 + y / 4 == b1 && y % 4 * 64 + z == b2
  {
  }

  /** The arithmetic of a final group of two bytes. */
  lemma RegroupTwo(b0: Byte, b1: Byte, x: int, y: int, z: int)
    requires x == b0 / 4 && y == b0 % 4 * 16 + b1 / 16 && z == b1 % 16 * 4
    ensures 0 <= x < 64 && 0 <= y < 64 && 0 <= z < 64
    ensures x * 4 + y / 16 == b0 && y % 16 * 16 + z / 4 == b1
  {
  }

  /** Decodes four characters; padding is accepted only in the `last` group. */
  function DecodeGroup(q: string, last: bool): (r: Option<seq<Byte>>)
    requires |q| == 4
  {
    var a, b, c, d := SextetValue(q[0]), SextetValue(q[1]), SextetValue(q[2]), SextetValue(q[3]);
    if a.None? || b.None? then None
    else if last && q[2] == '=' && q[3] == '=' then
      Some([a.value * 4 + b.value / 16])
    else if c.None? then None
    else if last && q[3] == '=' then
      Some([a.value * 4 + b.value / 16, b.value % 16 * 16 + c.value / 4])
    else if d.None? then None
    else
      Some([a.value * 4 + b.value / 16, b.value % 16 * 16 + c.value / 4, c.value % 4 * 64 + d.value])
  }

  /** Decodes a padded base64 text; `None` for anything else. */
  function Decode(s: string): (r: Option<seq<Byte>>)
    decreases |s|
  {
    if |s| == 0 then Some([])
    else if |s| < 4 then None
    else
      match DecodeGroup(s[..4], |s| == 4)
      case None => None
      case Some(group) =>
        match Decode(s[4..])
        case None => None
        case Some(rest) => Some(group + rest)
  }

  /** A group of four alphabet characters decodes to the three bytes their sextets
      carry, whether or not it is the last group. */
  lemma DecodeFour(w: nat, x: nat, y: nat, z: nat, last: bool)
    requires w < 64 && x < 64 && y < 64 && z < 64
    ensures DecodeGroup([Sextet(w), Sextet(x), Sextet(y), Sextet(z)], last)
         == Some([w * 4 + x / 16, x % 16 * 16 + y / 4, y % 4 * 64 + z])
  {
    SextetRoundTrip(w); SextetRoundTrip(x); SextetRoundTrip(y); SextetRoundTrip(z);
  }

  /** A last group of three alphabet characters and "=" decodes to two bytes. */
  lemma DecodeThree(w: nat, x: nat, y: nat)
    requires w < 64 && x < 64 && y < 64
    ensures DecodeGroup([Sextet(w), Sextet(x), Sextet(y), '='], true)
         == Some([w * 4 + x / 16, x % 16 * 16 + y / 4])
  {
    SextetRoundTrip(w); SextetRoundTrip(x); SextetRoundTrip(y);
  }

  /** A last group of two alphabet characters and "==" decodes to one byte. */
  lemma DecodeTwo(w: nat, x: nat)
    requires w < 64 && x < 64
    ensures DecodeGroup([Sextet(w), Sextet(x), '=', '='], true) == Some([w * 4 + x / 16])
  {
    SextetRoundTrip(w); SextetRoundTrip(x);
  }

  lemma DecodeEncodeOne(b: seq<Byte>)
    requires |b| == 1
    ensures DecodeGroup(EncodeGroup(b), true) == Some(b)
  {
    var w, x := b[0] / 4, b[0] % 4 * 16;
    assert EncodeGroup(b) == [Sextet(w), Sextet(x), '=', '='];
    DecodeTwo(w, x);
    assert b == [w * 4 + x / 16];
  }

  lemma DecodeEncodeTwo(b: seq<Byte>)
    requires |b| == 2
    ensures DecodeGroup(EncodeGroup(b), true) == Some(b)
  {
    var w, x, y := b[0] / 4, b[0] % 4 * 16 + b[1] / 16, b[1] % 16 * 4;
    assert EncodeGroup(b) == [Sextet(w), Sextet(x), Sextet(y), '='];
    RegroupTwo(b[0], b[1], w, x, y);
    DecodeThree(w, x, y);
    assert b == [w * 4 + x / 16, x % 16 * 16 + y / 4];
  }

  lemma DecodeEncodeThree(b: seq<Byte>, last: bool)
    requires |b| == 3
    ensures DecodeGroup(EncodeGroup(b), last) == Some(b)
  {
    var w, x, y, z := b[0] / 4, b[0] % 4 * 16 + b[1] / 16, b[1] % 16 * 4 + b[2] / 64, b[2] % 64;
    assert EncodeGroup(b) == [Sextet(w), Sextet(x), Sextet(y), Sextet(z)];
    RegroupThree(b[0], b[1], b[2], w, x, y, z);
    DecodeFour(w, x, y, z, last);
    assert b == [w * 4 + x / 16, x % 16 * 16 + y / 4, y % 4 * 64 + z];
  }

  /** Decoding undoes encoding. */
  lemma {:induction false} DecodeEncode(b: seq<Byte>)
    ensures Decode(Encode(b)) == Some(b)
    decreases |b|
  {
    var s := Encode(b);
    if 1 <= |b| <= 3 {
      if |b| == 1 { DecodeEncodeOne(b); }
      else if |b| == 2 { DecodeEncodeTwo(b); }
      else { DecodeEncodeThree(b, true); }
      assert s[..4] == s && s[4..] == [];
      assert b + [] == b;
    } else if |b| > 3 {
      DecodeEncodeThree(b[..3], false);
      DecodeEncode(b[3..]);
      assert s[..4] == EncodeGroup(b[..3]) && s[4..] == Encode(b[3..]);
      assert b == b[..3] + b[3..];
    }
  }

  /** The bytes of a string read as Latin-1; `None` when a character is above U+00FF. */
  function Latin1(s: string): (r: Option<seq<Byte>>)
    ensures r.Some? <==> forall i :: 0 <= i < |s| ==> s[i] as int < 256
    ensures r.Some? ==> |r.value| == |s| && forall i :: 0 <= i < |s| ==> r.value[i] == s[i] as int
  {
    if forall i :: 0 <= i < |s| ==> s[i] as int < 256 then
      Some(seq(|s|, i requires 0 <= i < |s| => s[i] as int))
    else None
  }

  /** `btoa(s)`: the base64 text of the Latin-1 bytes of `s`, or the exception. */
  function Btoa(s: string): (r: Result<string, string>)
    ensures r.Failure? <==> exists i :: 0 <= i < |s| && s[i] as int > 255
    ensures r.Failure? ==> r.error == InvalidCharacterError
    ensures r.Success? ==> |r.value| == 4 * ((|s| + 2) / 3)
  {
    match Latin1(s)
    case None => Failure(InvalidCharacterError)
    case Some(bytes) => Success(Encode(bytes))
  }

  /** `atob(t)`: the string whose Latin-1 bytes `t` encodes. */
  function Atob(t: string): Option<string> {
    match Decode(t)
    case None => None
    case Some(bytes) => Some(seq(|bytes|, i requires 0 <= i < |bytes| => bytes[i] as char))
  }

  /** Whatever `btoa` accepts, `atob` gives back. */
  lemma BtoaRoundTrip(s: string)
    requires Btoa(s).Success?
    ensures Atob(Btoa(s).value) == Some(s)
  {
    var bytes := Latin1(s).value;
    DecodeEncode(bytes);
    var back := seq(|bytes|, i requires 0 <= i < |bytes| => bytes[i] as char);
    assert back == s;
  }

  /** The Latin-1 bytes of a string whose characters are those bytes. */
  lemma Latin1Of(s: string, bytes: seq<Byte>)
    requires |s| == |bytes| && forall i :: 0 <= i < |s| ==> s[i] as int == bytes[i]
    ensures Latin1(s) == Some(bytes)
  {
    assert Latin1(s).Some?;
    assert Latin1(s).value == bytes;
  }

  /** The test vectors of section 10 of RFC 4648, up to one full group. */
  lemma Rfc4648ShortVectors()
    ensures Btoa("") == Success("")
    ensures Btoa("f") == Success("Zg==")
    ensures Btoa("fo") == Success("Zm8=")
    ensures Btoa("foo") == Success("Zm9v")
  {
    Latin1Of("f", [102]);
    Latin1Of("fo", [102, 111]);
    Latin1Of("foo", [102, 111, 111]);
  }

  /** The characters of a group of one byte, given its two sextets. */
  lemma EncodeGroupOf1(b: seq<Byte>, w: nat, x: nat)
    requires |b| == 1 && w == b[0] / 4 && x == b[0] % 4 * 16
    ensures w < 64 && x < 64 && EncodeGroup(b) == [Sextet(w), Sextet(x), '=', '=']
  {
  }

  /** The characters of a group of two bytes, given its three sextets. */
  lemma EncodeGroupOf2(b: seq<Byte>, w: nat, x: nat, y: nat)
    requires |b| == 2 && w == b[0] / 4 && x == b[0] % 4 * 16 + b[1] / 16 && y == b[1] % 16 * 4
    ensures w < 64 && x < 64 && y < 64 && EncodeGroup(b) == [Sextet(w), Sextet(x), Sextet(y), '=']
  {
  }

  /** The characters of a group of three bytes, given its four sextets. */
  lemma EncodeGroupOf3(b: seq<Byte>, w: nat, x: nat, y: nat, z: nat)
    requires |b| == 3 && w == b[0] / 4 && x == b[0] % 4 * 16 + b[1] / 16
    requires y == b[1] % 16 * 4 + b[2] / 64 && z == b[2] % 64
    ensures w < 64 && x < 64 && y < 64 && z < 64
    ensures EncodeGroup(b) == [Sextet(w), Sextet(x), Sextet(y), Sextet(z)]
  {
  }

  /** The test vectors of section 10 of RFC 4648 spanning two groups; "foo" is the
      group "Zm9v". */
  lemma Rfc4648Foob()
    ensures Btoa("foob") == Success("Zm9vYg==")
  {
    var bytes: seq<Byte> := [102, 111, 111, 98];
    var s := "foob";
    Latin1Of(s, bytes);
    assert bytes[..3] == [102, 111, 111] && bytes[3..] == [98];
    EncodeGroupOf3(bytes[..3], 25, 38, 61, 47);
    EncodeGroupOf1(bytes[3..], 24, 32);
    assert Encode(bytes) == "Zm9v" + "Yg==";
    assert "Zm9v" + "Yg==" == "Zm9vYg==";
    assert Btoa(s) == Success(Encode(bytes));
  }

  lemma Rfc4648Fooba()
    ensures Btoa("fooba") == Success("Zm9vYmE=")
  {
    var bytes: seq<Byte> := [102, 111, 111, 98, 97];
    var s := "fooba";
    Latin1Of(s, bytes);
    assert bytes[..3] == [102, 111, 111] && bytes[3..] == [98, 97];
    EncodeGroupOf3(bytes[..3], 25, 38, 61, 47);
    EncodeGroupOf2(bytes[3..], 24, 38, 4);
    assert Encode(bytes) == "Zm9v" + "YmE=";
    assert "Zm9v" + "YmE=" == "Zm9vYmE=";
    assert Btoa(s) == Success(Encode(bytes));
  }

  lemma Rfc4648Foobar()
    ensures Btoa("foobar") == Success("Zm9vYmFy")
  {
    var bytes: seq<Byte> := [102, 111, 111, 98, 97, 114];
    var s := "foobar";
    Latin1Of(s, bytes);
    assert bytes[..3] == [102, 111, 111] && bytes[3..] == [98, 97, 114];
    EncodeGroupOf3(bytes[..3], 25, 38, 61, 47);
    EncodeGroupOf3(bytes[3..], 24, 38, 5, 50);
    assert Encode(bytes) == "Zm9v" + "YmFy";
    assert "Zm9v" + "YmFy" == "Zm9vYmFy";
    assert Btoa(s) == Success(Encode(bytes));
  }
}
