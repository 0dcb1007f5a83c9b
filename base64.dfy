/**
 * The base64 codec under the bearer tokens (php-api/helpers/jwt.php), modelled on
 * bytes: PHP's `base64_encode` (section 4 of RFC 4648, with '=' padding), the
 * `strtr`/`rtrim` steps that turn it into the unpadded URL-safe form of section 5,
 * and PHP's non-strict `base64_decode`, which skips characters outside the
 * alphabet (padding included) and drops the bits of an incomplete last byte.
 */
module Base64 {
  import opened Common
  import opened Text

  type byte = x: int | 0 <= x < 256

  /** Character for a 6-bit value in the standard alphabet (section 4 of RFC 4648). */
  function StdChar(v: int): (c: char)
    requires 0 <= v < 64
    ensures c != '=' && c != '-' && c != '_' && c != '.'
  {
    if v < 26 then ('A' as int + v) as char
    else if v < 52 then ('a' as int + v - 26) as char
    else if v < 62 then ('0' as int + v - 52) as char
    else if v == 62 then '+'
    else '/'
  }

  /** Character for a 6-bit value in the URL-safe alphabet (section 5 of RFC 4648). */
  function UrlChar(v: int): (c: char)
    requires 0 <= v < 64
    ensures c != '+' && c != '/' && c != '=' && c != '.'
  {
    if v == 62 then '-' else if v == 63 then '_' else StdChar(v)
  }

  /** Reverse table of the standard alphabet; None for every other character. */
  function StdValue(c: char): (r: Option<int>)
    ensures r.Some? ==> 0 <= r.value < 64 && StdChar(r.value) == c
  {
    if 'A' <= c <= 'Z' then Some(c as int - 'A' as int)
    else if 'a' <= c <= 'z' then Some(c as int - 'a' as int + 26)
    else if '0' <= c <= '9' then Some(c as int - '0' as int + 52)
    else if c == '+' then Some(62)
    else if c == '/' then Some(63)
    else None
  }

  lemma StdValueOfChar(v: int)
    requires 0 <= v < 64
    ensures StdValue(StdChar(v)) == Some(v)
  {
  }

  predicate IsSextets(v: seq<int>)
  {
    forall i :: 0 <= i < |v| ==> 0 <= v[i] < 64
  }

  /** The 6-bit groups of a byte string: 3 bytes give 4 values, a tail of 1 or 2 bytes gives 2 or 3. */
  function EncodeSextets(b: seq<byte>): (v: seq<int>)
    ensures IsSextets(v)
    ensures |v| == |b| / 3 * 4 + (if |b| % 3 == 0 then 0 else |b| % 3 + 1)
  {
    if |b| == 0 then []
    else if |b| == 1 then [b[0] / 4, b[0] % 4 * 16]
    else if |b| == 2 then [b[0] / 4, b[0] % 4 * 16 + b[1] / 16, b[1] % 16 * 4]
    else [b[0] / 4, b[0] % 4 * 16 + b[1] / 16, b[1] % 16 * 4 + b[2] / 64, b[2] % 64] + EncodeSextets(b[3..])
  }

  function StdChars(v: seq<int>): (s: string)
    requires IsSextets(v)
    ensures |s| == |v| && forall i :: 0 <= i < |v| ==> s[i] == StdChar(v[i])
  {
    if |v| == 0 then "" else [StdChar(v[0])] + StdChars(v[1..])
  }

  function UrlChars(v: seq<int>): (s: string)
    requires IsSextets(v)
    ensures |s| == |v| && forall i :: 0 <= i < |v| ==> s[i] == UrlChar(v[i])
  {
    if |v| == 0 then "" else [UrlChar(v[0])] + UrlChars(v[1..])
  }

  /** PHP `base64_encode`: standard alphabet, padded with '=' to a multiple of 4. */
  function Encode(b: seq<byte>): string
  {
    StdChars(EncodeSextets(b)) + seq((3 - |b| % 3) % 3, _ => '=')
  }

  /** PHP `strtr($s, $from, $to)` for two-character `$from` and `$to`. */
  function Strtr(s: string, from1: char, to1: char, from2: char, to2: char): (r: string)
    ensures |r| == |s|
    ensures forall i :: 0 <= i < |s| ==>
      r[i] == (if s[i] == from1 then to1 else if s[i] == from2 then to2 else s[i])
  {
    if |s| == 0 then "" else
      [if s[0] == from1 then to1 else if s[0] == from2 then to2 else s[0]] + Strtr(s[1..], from1, to1, from2, to2)
  }

  /** `base64UrlEncode` (jwt.php:6-8): `rtrim(strtr(base64_encode($data), '+/', '-_'), '=')`. */
  function UrlEncode(b: seq<byte>): string
  {
    RTrimChar(Strtr(Encode(b), '+', '-', '/', '_'), '=')
  }

  /** The values of the alphabet characters of `s`, in order; every other character is skipped. */
  function Sextets(s: string): (v: seq<int>)
    ensures IsSextets(v)
  {
    if |s| == 0 then []
    else match StdValue(s[0])
      case Some(x) => [x] + Sextets(s[1..])
      case None => Sextets(s[1..])
  }

  /** Bytes of a run of 6-bit values; the bits of an incomplete last byte are dropped. */
  function DecodeSextets(v: seq<int>): seq<byte>
    requires IsSextets(v)
  {
    if |v| < 2 then []
    else if |v| == 2 then [v[0] * 4 + v[1] / 16]
    else if |v| == 3 then [v[0] * 4 + v[1] / 16, v[1] % 16 * 16 + v[2] / 4]
    else [v[0] * 4 + v[1] / 16, v[1] % 16 * 16 + v[2] / 4, v[2] % 4 * 64 + v[3]] + DecodeSextets(v[4..])
  }

  /** PHP non-strict `base64_decode`. */
  function Decode(s: string): seq<byte>
  {
    DecodeSextets(Sextets(s))
  }

  /** `base64UrlDecode` (jwt.php:10-12): `base64_decode(strtr($data, '-_', '+/'))`. */
  function UrlDecode(s: string): seq<byte>
  {
    Decode(Strtr(s, '-', '+', '_', '/'))
  }

  // ---------------------------------------------------------------------------
  // Properties

  lemma {:induction false} RTrimPadding(x: string, n: nat)
    requires x == "" || x[|x| - 1] != '='
    ensures RTrimChar(x + seq(n, _ => '='), '=') == x
    decreases n
  {
    if n == 0 {
      assert x + seq(n, _ => '=') == x;
    } else {
      var s := x + seq(n, _ => '=');
      assert s[..|s| - 1] == x + seq(n - 1, _ => '=');
      RTrimPadding(x, n - 1);
    }
  }

  lemma {:induction false} StrtrStdChars(v: seq<int>)
    requires IsSextets(v)
    ensures Strtr(StdChars(v), '+', '-', '/', '_') == UrlChars(v)
  {
    var l, r := Strtr(StdChars(v), '+', '-', '/', '_'), UrlChars(v);
    assert |l| == |r|;
    forall i | 0 <= i < |v| ensures l[i] == r[i] {
    }
  }

  lemma {:induction false} StrtrUrlChars(v: seq<int>)
    requires IsSextets(v)
    ensures Strtr(UrlChars(v), '-', '+', '_', '/') == StdChars(v)
  {
    var l, r := Strtr(UrlChars(v), '-', '+', '_', '/'), StdChars(v);
    assert |l| == |r|;
    forall i | 0 <= i < |v| ensures l[i] == r[i] {
    }
  }

  /** The URL-safe encoding is the unpadded URL alphabet over the 6-bit groups. */
  lemma UrlEncodeChars(b: seq<byte>)
    ensures UrlEncode(b) == UrlChars(EncodeSextets(b))
  {
    var v := EncodeSextets(b);
    var n := (3 - |b| % 3) % 3;
    StrtrPadded(v, n);
    var u := UrlChars(v);
    assert u == "" || u[|u| - 1] != '=';
    RTrimPadding(u, n);
  }

  /** `strtr` maps the standard characters to the URL-safe ones and leaves the padding alone. */
  lemma StrtrPadded(v: seq<int>, n: nat)
    requires IsSextets(v)
    ensures Strtr(StdChars(v) + seq(n, _ => '='), '+', '-', '/', '_') == UrlChars(v) + seq(n, _ => '=')
  {
    var s := StdChars(v) + seq(n, _ => '=');
    var l, r := Strtr(s, '+', '-', '/', '_'), UrlChars(v) + seq(n, _ => '=');
    assert |l| == |r|;
    forall i | 0 <= i < |s|
      ensures l[i] == r[i]
    {
      if i < |v| {
        assert s[i] == StdChar(v[i]) && r[i] == UrlChar(v[i]);
      } else {
        assert s[i] == '=' && r[i] == '=';
      }
    }
  }

  /** base64UrlEncode never produces '+', '/' or '=' (jwt.php:6-8). */
  lemma UrlEncodeAlphabet(b: seq<byte>)
    ensures '+' !in UrlEncode(b) && '/' !in UrlEncode(b) && '=' !in UrlEncode(b)
    ensures '.' !in UrlEncode(b)
  {
    UrlEncodeChars(b);
  }

  lemma {:induction false} SextetsOfStdChars(v: seq<int>)
    requires IsSextets(v)
    ensures Sextets(StdChars(v)) == v
    decreases |v|
  {
    if |v| > 0 {
      var s := StdChars(v);
      StdValueOfChar(v[0]);
      assert s[1..] == StdChars(v[1..]);
      SextetsOfStdChars(v[1..]);
    }
  }

  lemma GroupRoundTrip(b0: byte, b1: byte, b2: byte)
    ensures b0 / 4 * 4 + (b0 % 4 * 16 + b1 / 16) / 16 == b0
    ensures (b0 % 4 * 16 + b1 / 16) % 16 * 16 + (b1 % 16 * 4 + b2 / 64) / 4 == b1
    ensures (b1 % 16 * 4 + b2 / 64) % 4 * 64 + b2 % 64 == b2
  {
  }

  lemma {:induction false} DecodeEncodeSextets(b: seq<byte>)
    ensures DecodeSextets(EncodeSextets(b)) == b
    decreases |b|
  {
    if |b| >= 3 {
      GroupRoundTrip(b[0], b[1], b[2]);
      var v := EncodeSextets(b);
      assert v[4..] == EncodeSextets(b[3..]);
      DecodeEncodeSextets(b[3..]);
      assert b == b[..3] + b[3..];
    } else if |b| == 2 {
      GroupRoundTrip(b[0], b[1], 0);
    } else if |b| == 1 {
      GroupRoundTrip(b[0], 0, 0);
    }
  }

  /** `base64UrlDecode(base64UrlEncode($x)) === $x` (jwt.php:6-12). */
  lemma UrlRoundTrip(b: seq<byte>)
    ensures UrlDecode(UrlEncode(b)) == b
  {
    var v := EncodeSextets(b);
    UrlEncodeChars(b);
    StrtrUrlChars(v);
    SextetsOfStdChars(v);
    DecodeEncodeSextets(b);
  }
}
