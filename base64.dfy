/** Base 64 encoding as defined in section 4 of RFC 4648 (alphabet `A`-`Z`,
    `a`-`z`, `0`-`9`, `+`, `/`, padding `=`), which `btoa` applies to a string
    of Latin-1 code units, and the decoding that inverts it. */
module Base64 {
  import opened Wrappers

  type Byte = b: int | 0 <= b < 256

  /** The character for the 6-bit value `i` (Table 1 of RFC 4648). */
  function Char64(i: int): (c: char)
    requires 0 <= i < 64
    ensures c != '='
  {
    if i < 26 then ('A' as int + i) as char
    else if i < 52 then ('a' as int + i - 26) as char
    else if i < 62 then ('0' as int + i - 52) as char
    else if i == 62 then '+'
    else '/'
  }

  /** The 6-bit value of an alphabet character; None for any other character. */
  function Index64(c: char): (r: Option<int>)
    ensures r.Some? ==> 0 <= r.value < 64
  {
    if 'A' <= c <= 'Z' then Some(c as int - 'A' as int)
    else if 'a' <= c <= 'z' then Some(c as int - 'a' as int + 26)
    else if '0' <= c <= '9' then Some(c as int - '0' as int + 52)
    else if c == '+' then Some(62)
    else if c == '/' then Some(63)
    else None
  }

  lemma {:induction false} Index64OfChar64(i: int)
    requires 0 <= i < 64
    ensures Index64(Char64(i)) == Some(i)
  {
  }

  /** The 6-bit groups of `bytes`: each three bytes give four values, and a
      final one or two bytes give two or three values, the missing low bits
      being zero (section 4 of RFC 4648). */
  function Sextets(bytes: seq<Byte>): (r: seq<int>)
    ensures forall i :: 0 <= i < |r| ==> 0 <= r[i] < 64
    ensures |r| == 4 * (|bytes| / 3) + (if |bytes| % 3 == 0 then 0 else |bytes| % 3 + 1)
    decreases |bytes|
  {
    if |bytes| == 0 then []
    else if |bytes| == 1 then [bytes[0] / 4, (bytes[0] % 4) * 16]
    else if |bytes| == 2 then [bytes[0] / 4, (bytes[0] % 4) * 16 + bytes[1] / 16, (bytes[1] % 16) * 4]
    else
      [bytes[0] / 4, (bytes[0] % 4) * 16 + bytes[1] / 16, (bytes[1] % 16) * 4 + bytes[2] / 64, bytes[2] % 64]
      + Sextets(bytes[3..])
  }

  /** The bytes that a run of 6-bit groups stands for; None for a run that
      no byte string produces (a single leftover group). */
  function BytesOf(sx: seq<int>): Option<seq<Byte>>
    requires forall i :: 0 <= i < |sx| ==> 0 <= sx[i] < 64
    decreases |sx|
  {
    if |sx| == 0 then Some([])
    else if |sx| == 1 then None
    else if |sx| == 2 then Some([sx[0] * 4 + sx[1] / 16])
    else if |sx| == 3 then Some([sx[0] * 4 + sx[1] / 16, (sx[1] % 16) * 16 + sx[2] / 4])
    else
      match BytesOf(sx[4..])
      case None => None
      case Some(rest) =>
        Some([sx[0] * 4 + sx[1] / 16, (sx[1] % 16) * 16 + sx[2] / 4, (sx[2] % 4) * 64 + sx[3]] + rest)
  }

  lemma {:induction false} BytesOfSextets(bytes: seq<Byte>)
    ensures BytesOf(Sextets(bytes)) == Some(bytes)
    decreases |bytes|
  {
    if 0 < |bytes| < 3 {
      ShortGroup(bytes);
    } else if |bytes| >= 3 {
      BytesOfSextets(bytes[3..]);
      FullGroup(bytes);
    }
  }

  /** The final one or two bytes come back from their groups. */
  lemma {:induction false} ShortGroup(bytes: seq<Byte>)
    requires 0 < |bytes| < 3
    ensures BytesOf(Sextets(bytes)) == Some(bytes)
  {
    var sx := Sextets(bytes);
    if |bytes| == 1 {
      GroupArith(bytes[0], 0, 0);
      assert sx == [bytes[0] / 4, (bytes[0] % 4) * 16];
      assert BytesOf(sx) == Some([sx[0] * 4 + sx[1] / 16]);
      assert [bytes[0]] == bytes;
    } else {
      GroupArith(bytes[0], bytes[1], 0);
      assert sx == [bytes[0] / 4, (bytes[0] % 4) * 16 + bytes[1] / 16, (bytes[1] % 16) * 4];
      assert BytesOf(sx) == Some([sx[0] * 4 + sx[1] / 16, (sx[1] % 16) * 16 + sx[2] / 4]);
      assert [bytes[0], bytes[1]] == bytes;
    }
  }

  /** Three bytes come back from their four groups, ahead of the rest. */
  lemma {:induction false} FullGroup(bytes: seq<Byte>)
    requires |bytes| >= 3 && BytesOf(Sextets(bytes[3..])) == Some(bytes[3..])
    ensures BytesOf(Sextets(bytes)) == Some(bytes)
  {
    var a, b, c := bytes[0], bytes[1], bytes[2];
    var head := [a / 4, (a % 4) * 16 + b / 16, (b % 16) * 4 + c / 64, c % 64];
    var sx := Sextets(bytes);
    assert sx == head + Sextets(bytes[3..]);
    assert sx[4..] == Sextets(bytes[3..]);
    assert sx[0] == a / 4 && sx[1] == (a % 4) * 16 + b / 16;
    assert sx[2] == (b % 16) * 4 + c / 64 && sx[3] == c % 64;
    GroupArith(a, b, c);
    assert sx[0] * 4 + sx[1] / 16 == a;
    assert (sx[1] % 16) * 16 + sx[2] / 4 == b;
    assert (sx[2] % 4) * 64 + sx[3] == c;
    assert BytesOf(sx) == Some([a, b, c] + bytes[3..]);
    assert [a, b, c] + bytes[3..] == bytes;
  }

  /** The byte arithmetic of one group: splitting three bytes into four 6-bit
      values and joining them again gives the bytes back. */
  lemma {:induction false} GroupArith(a: Byte, b: Byte, c: Byte)
    ensures var s1 := (a % 4) * 16 + b / 16; (a / 4) * 4 + s1 / 16 == a && s1 % 16 == b / 16
    ensures var s2 := (b % 16) * 4 + c / 64; (b / 16) * 16 + s2 / 4 == b && s2 % 4 == c / 64
    ensures (c / 64) * 64 + c % 64 == c
  {
    Split16(a % 4, b / 16);
    Split4(b % 16, c / 64);
  }

  /** `hi * 16 + lo` splits back into `hi` and `lo` for a hex digit `lo`. */
  lemma {:induction false} Split16(hi: nat, lo: nat)
    requires lo < 16
    ensures (hi * 16 + lo) / 16 == hi && (hi * 16 + lo) % 16 == lo
  {
  }

  /** `hi * 4 + lo` splits back into `hi` and `lo` for a base-4 digit `lo`. */
  lemma {:induction false} Split4(hi: nat, lo: nat)
    requires lo < 4
    ensures (hi * 4 + lo) / 4 == hi && (hi * 4 + lo) % 4 == lo
  {
  }

  function Padding(n: nat): string {
    if n % 3 == 1 then "==" else if n % 3 == 2 then "=" else ""
  }

  /** The alphabet characters of the 6-bit groups of `bytes`. */
  function Body(bytes: seq<Byte>): (r: string)
    ensures |r| == |Sextets(bytes)|
    ensures forall i :: 0 <= i < |r| ==> Index64(r[i]) == Some(Sextets(bytes)[i])
  {
    var sx := Sextets(bytes);
    var body := seq(|sx|, i requires 0 <= i < |sx| => Char64(sx[i]));
    assert forall i :: 0 <= i < |body| ==> Index64(body[i]) == Some(sx[i]) by {
      forall i | 0 <= i < |body| ensures Index64(body[i]) == Some(sx[i]) {
        Index64OfChar64(sx[i]);
      }
    }
    body
  }

  /** The base 64 encoding of `bytes`: the alphabet character of every 6-bit
      group, then `=` padding up to a multiple of four characters. */
  function Encode(bytes: seq<Byte>): (r: string)
    ensures |r| == 4 * ((|bytes| + 2) / 3)
    ensures forall i :: 0 <= i < |r| ==> r[i] == '=' || Index64(r[i]).Some?
  {
    Body(bytes) + Padding(|bytes|)
  }

  /** How many `=` end `s` (at most two). */
  function PadCount(s: string): (p: nat)
    ensures p <= 2 && p <= |s|
  {
    if |s| >= 2 && s[|s| - 2] == '=' && s[|s| - 1] == '=' then 2
    else if |s| >= 1 && s[|s| - 1] == '=' then 1
    else 0
  }

  /** The 6-bit values of the characters of `s`; None if one is not in the
      alphabet. */
  function SextetsOf(s: string): (r: Option<seq<int>>)
    ensures r.Some? ==> |r.value| == |s| && forall i :: 0 <= i < |s| ==> 0 <= r.value[i] < 64
    ensures r.Some? ==> forall i :: 0 <= i < |s| ==> Index64(s[i]) == Some(r.value[i])
    ensures r.None? ==> exists i :: 0 <= i < |s| && Index64(s[i]).None?
  {
    if forall i :: 0 <= i < |s| ==> Index64(s[i]).Some? then
      Some(seq(|s|, i requires 0 <= i < |s| => Index64(s[i]).value))
    else None
  }

  /** Base 64 decoding; None for text that is not an encoding. */
  function Decode(s: string): Option<seq<Byte>> {
    if |s| % 4 != 0 then None
    else
      match SextetsOf(s[..|s| - PadCount(s)])
      case None => None
      case Some(sx) => BytesOf(sx)
  }

  /** The padding of an encoding is exactly what `PadCount` strips. */
  lemma {:induction false} StripPadding(bytes: seq<Byte>)
    ensures var s := Encode(bytes); s[..|s| - PadCount(s)] == Body(bytes)
  {
    var body, pad := Body(bytes), Padding(|bytes|);
    var s := body + pad;
    assert |body| > 0 ==> Index64(body[|body| - 1]).Some?;
    assert PadCount(s) == |pad|;
    assert s[..|s| - |pad|] == body;
  }

  lemma {:induction false} SextetsOfBody(bytes: seq<Byte>)
    ensures SextetsOf(Body(bytes)) == Some(Sextets(bytes))
  {
    var decoded := SextetsOf(Body(bytes));
    assert decoded.Some?;
    assert decoded.value == Sextets(bytes);
  }

  lemma FourTimes(q: int)
    ensures (4 * q) % 4 == 0
  {
  }

  /** Decoding an encoding gives back the bytes. */
  lemma {:induction false} DecodeEncode(bytes: seq<Byte>)
    ensures Decode(Encode(bytes)) == Some(bytes)
  {
    var s := Encode(bytes);
    var q := (|bytes| + 2) / 3;
    assert |s| == 4 * q;
    StripPadding(bytes);
    SextetsOfBody(bytes);
    BytesOfSextets(bytes);
    FourTimes(q);
    assert |s| % 4 == 0;
    var body := s[..|s| - PadCount(s)];
    assert SextetsOf(body) == Some(Sextets(bytes));
    assert Decode(s) == BytesOf(Sextets(bytes));
  }

  /** The string whose i-th code unit is byte i (`String.fromCharCode`). */
  function Latin1(bytes: seq<Byte>): (r: string)
    ensures |r| == |bytes|
    ensures forall i :: 0 <= i < |bytes| ==> r[i] as int == bytes[i]
  {
    seq(|bytes|, i requires 0 <= i < |bytes| => bytes[i] as char)
  }

  /** `btoa(s)`: fails (InvalidCharacterError) when a code unit is above 255,
      otherwise encodes the code units as bytes. */
  function Btoa(s: string): (r: Result<string, string>)
    ensures r.Success? <==> forall i :: 0 <= i < |s| ==> s[i] as int < 256
  {
    if forall i :: 0 <= i < |s| ==> s[i] as int < 256 then
      Success(Encode(seq(|s|, i requires 0 <= i < |s| => s[i] as int as Byte)))
    else Failure("InvalidCharacterError")
  }

  /** `btoa` of the Latin-1 string of some bytes is their encoding. */
  lemma {:induction false} BtoaLatin1(bytes: seq<Byte>)
    ensures Btoa(Latin1(bytes)) == Success(Encode(bytes))
  {
    var s := Latin1(bytes);
    var back := seq(|s|, i requires 0 <= i < |s| => s[i] as int as Byte);
    assert back == bytes;
  }
}
