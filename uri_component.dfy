/**
 * `encodeURIComponent` and `decodeURIComponent` as ECMA-262 defines them
 * (sections 19.2.6.5 and 19.2.6.3 with the Encode and Decode abstract
 * operations of 19.2.6.1): every character outside the unescaped set is
 * written as the `%HH` escapes of its UTF-8 bytes (RFC 3629), with the
 * percent-encoding of RFC 3986 section 2.1.  Also a reader for the
 * `name=value&...` query strings that such values are placed in.
 */
module UriComponent {
  import opened Options
  import Text

  type Byte = b: int | 0 <= b < 256

  /** The characters `encodeURIComponent` leaves alone: uriAlpha, DecimalDigit and uriMark. */
  predicate IsUnescaped(c: char) {
    || 'A' <= c <= 'Z' || 'a' <= c <= 'z' || '0' <= c <= '9'
    || c == '-' || c == '_' || c == '.' || c == '!' || c == '~' || c == '*' || c == '\'' || c == '(' || c == ')'
  }

  // ---------------------------------------------------------------------------
  // Hexadecimal digits

  function HexDigit(v: nat): (c: char)
    requires v < 16
    ensures IsUnescaped(c)
  {
    "0123456789ABCDEF"[v]
  }

  predicate IsHexDigit(c: char) {
    '0' <= c <= '9' || 'A' <= c <= 'F' || 'a' <= c <= 'f'
  }

  function HexValue(c: char): (v: nat)
    requires IsHexDigit(c)
    ensures v < 16
  {
    if '0' <= c <= '9' then c as int - '0' as int
    else if 'A' <= c <= 'F' then c as int - 'A' as int + 10
    else c as int - 'a' as int + 10
  }

  lemma HexRoundTrip(v: nat)
    requires v < 16
    ensures IsHexDigit(HexDigit(v)) && HexValue(HexDigit(v)) == v
  {
  }

  // ---------------------------------------------------------------------------
  // UTF-8 (RFC 3629)

  predicate IsContinuation(b: Byte) {
    0x80 <= b < 0xC0
  }

  /** The UTF-8 bytes of a code point. */
  function Utf8(c: char): (bytes: seq<Byte>)
    ensures 1 <= |bytes| <= 4
    ensures forall j :: 1 <= j < |bytes| ==> IsContinuation(bytes[j])
  {
    var cp := c as int;
    if cp < 0x80 then [cp]
    else if cp < 0x800 then [0xC0 + cp / 64, 0x80 + cp % 64]
    else if cp < 0x10000 then [0xE0 + cp / 4096, 0x80 + cp / 64 % 64, 0x80 + cp % 64]
    else [0xF0 + cp / 262144, 0x80 + cp / 4096 % 64, 0x80 + cp / 64 % 64, 0x80 + cp % 64]
  }

  /**
   * The number of leading one bits of a byte, which in a UTF-8 lead byte is
   * the length of its sequence; 1 marks a continuation byte and 5 stands for
   * every count above four.
   */
  function LeadingOnes(b: Byte): nat {
    if b < 0x80 then 0
    else if b < 0xC0 then 1
    else if b < 0xE0 then 2
    else if b < 0xF0 then 3
    else if b < 0xF8 then 4
    else 5
  }

  /** Division by the UTF-8 group sizes is determined by quotient and remainder. */
  lemma DivMod(x: int, q: int, r: int, d: int)
    requires d == 64 || d == 4096 || d == 262144
    requires 0 <= r < d && x == q * d + r
    ensures x / d == q && x % d == r
  {
    if d == 64 {
      assert x == q * 64 + r;
    } else if d == 4096 {
      assert x == q * 4096 + r;
    } else {
      assert x == q * 262144 + r;
    }
  }

  function Utf8Decode2(b0: Byte, b1: Byte): (r: Option<char>)
    requires 0xC0 <= b0 < 0xE0 && IsContinuation(b1)
    ensures r.Some? ==> Utf8(r.value) == [b0, b1]
  {
    var cp := (b0 - 0xC0) * 64 + (b1 - 0x80);
    if cp < 0x80 then None
    else
      DivMod(cp, b0 - 0xC0, b1 - 0x80, 64);
      Some(cp as char)
  }

  function Utf8Decode3(b0: Byte, b1: Byte, b2: Byte): (r: Option<char>)
    requires 0xE0 <= b0 < 0xF0 && IsContinuation(b1) && IsContinuation(b2)
    ensures r.Some? ==> Utf8(r.value) == [b0, b1, b2]
  {
    var hi := (b0 - 0xE0) * 64 + (b1 - 0x80);
    var cp := hi * 64 + (b2 - 0x80);
    if cp < 0x800 || 0xD800 <= cp < 0xE000 then None
    else
      DivMod(cp, hi, b2 - 0x80, 64);
      DivMod(hi, b0 - 0xE0, b1 - 0x80, 64);
      DivMod(cp, b0 - 0xE0, (b1 - 0x80) * 64 + (b2 - 0x80), 4096);
      Some(cp as char)
  }

  function Utf8Decode4(b0: Byte, b1: Byte, b2: Byte, b3: Byte): (r: Option<char>)
    requires 0xF0 <= b0 < 0xF8 && IsContinuation(b1) && IsContinuation(b2) && IsContinuation(b3)
    ensures r.Some? ==> Utf8(r.value) == [b0, b1, b2, b3]
  {
    var top := (b0 - 0xF0) * 64 + (b1 - 0x80);
    var hi := top * 64 + (b2 - 0x80);
    var cp := hi * 64 + (b3 - 0x80);
    if cp < 0x10000 || cp > 0x10FFFF then None
    else
      DivMod(cp, hi, b3 - 0x80, 64);
      DivMod(hi, top, b2 - 0x80, 64);
      DivMod(top, b0 - 0xF0, b1 - 0x80, 64);
      DivMod(cp, top, (b2 - 0x80) * 64 + (b3 - 0x80), 4096);
      DivMod(cp, b0 - 0xF0, (b1 - 0x80) * 4096 + (b2 - 0x80) * 64 + (b3 - 0x80), 262144);
      Some(cp as char)
  }

  /** The code point a multi-byte sequence encodes, if it is well formed and the shortest encoding of a scalar value. */
  function Utf8Decode(bytes: seq<Byte>): (r: Option<char>)
    requires 2 <= |bytes| <= 4
    ensures r.Some? ==> Utf8(r.value) == bytes
  {
    var n := |bytes|;
    if LeadingOnes(bytes[0]) != n || !IsContinuation(bytes[1]) then None
    else if n == 2 then Utf8Decode2(bytes[0], bytes[1])
    else if !IsContinuation(bytes[2]) then None
    else if n == 3 then Utf8Decode3(bytes[0], bytes[1], bytes[2])
    else if !IsContinuation(bytes[3]) then None
    else Utf8Decode4(bytes[0], bytes[1], bytes[2], bytes[3])
  }

  /** Decoding undoes encoding for every code point of two or more bytes. */
  lemma Utf8RoundTrip(c: char)
    ensures |Utf8(c)| == 1 ==> Utf8(c)[0] == c as int && LeadingOnes(Utf8(c)[0]) == 0
    ensures |Utf8(c)| > 1 ==> LeadingOnes(Utf8(c)[0]) == |Utf8(c)| && Utf8Decode(Utf8(c)) == Some(c)
  {
    var cp := c as int;
    if cp < 0x80 {
    } else if cp < 0x800 {
      assert cp == (cp / 64) * 64 + cp % 64;
    } else if cp < 0x10000 {
      assert cp / 64 == (cp / 4096) * 64 + cp / 64 % 64;
      assert cp == (cp / 4096) * 4096 + (cp / 64 % 64) * 64 + cp % 64;
    } else {
      assert cp / 64 == (cp / 4096) * 64 + cp / 64 % 64;
      assert cp / 4096 == (cp / 262144) * 64 + cp / 4096 % 64;
      assert cp == (cp / 262144) * 262144 + (cp / 4096 % 64) * 4096 + (cp / 64 % 64) * 64 + cp % 64;
    }
  }

  // ---------------------------------------------------------------------------
  // encodeURIComponent

  /** The `%HH` escapes of a byte sequence, with upper-case hexadecimal digits. */
  function Escape(bytes: seq<Byte>): (r: string)
    ensures |r| == 3 * |bytes|
    ensures forall i :: 0 <= i < |r| ==> IsUnescaped(r[i]) || r[i] == '%'
  {
    if bytes == [] then "" else ['%', HexDigit(bytes[0] / 16), HexDigit(bytes[0] % 16)] + Escape(bytes[1..])
  }

  function EncodeChar(c: char): (r: string)
    ensures forall i :: 0 <= i < |r| ==> IsUnescaped(r[i]) || r[i] == '%'
  {
    if IsUnescaped(c) then [c] else Escape(Utf8(c))
  }

  /** Only unescaped characters and `%` survive encoding, so no `&`, `=`, `+` or space is left. */
  function Encode(s: string): (r: string)
    ensures forall i :: 0 <= i < |r| ==> IsUnescaped(r[i]) || r[i] == '%'
  {
    if s == "" then "" else EncodeChar(s[0]) + Encode(s[1..])
  }

  /** A string made of unescaped characters is its own encoding. */
  lemma {:induction false} EncodeUnescaped(s: string)
    requires forall i :: 0 <= i < |s| ==> IsUnescaped(s[i])
    ensures Encode(s) == s
  {
    if s != "" {
      EncodeUnescaped(s[1..]);
    }
  }

  // ---------------------------------------------------------------------------
  // decodeURIComponent

  /** A well-formed escape `%HH` starts at index `i`. */
  predicate EscapeAt(s: string, i: nat) {
    i + 3 <= |s| && s[i] == '%' && IsHexDigit(s[i + 1]) && IsHexDigit(s[i + 2])
  }

  function ByteAt(s: string, i: nat): Byte
    requires EscapeAt(s, i)
  {
    HexValue(s[i + 1]) * 16 + HexValue(s[i + 2])
  }

  lemma EscapeAtTail(s: string, j: nat)
    requires |s| >= 3
    requires EscapeAt(s[3..], 3 * j)
    ensures EscapeAt(s, 3 * j + 3) && ByteAt(s, 3 * j + 3) == ByteAt(s[3..], 3 * j)
  {
    assert s[3..][3 * j] == s[3 * j + 3];
    assert s[3..][3 * j + 1] == s[3 * j + 4];
    assert s[3..][3 * j + 2] == s[3 * j + 5];
  }

  /** The bytes of `n` consecutive escapes at the start of `s`, if they are all well formed. */
  function EscapedBytes(s: string, n: nat): (r: Option<seq<Byte>>)
    ensures r.Some? ==> |r.value| == n && 3 * n <= |s|
    ensures r.Some? ==> forall j :: 0 <= j < n ==> EscapeAt(s, 3 * j) && r.value[j] == ByteAt(s, 3 * j)
  {
    if n == 0 then Some([])
    else if !EscapeAt(s, 0) then None
    else
      match EscapedBytes(s[3..], n - 1)
      case None => None
      case Some(rest) =>
        assert forall j :: 1 <= j < n ==> EscapeAt(s, 3 * j) && rest[j - 1] == ByteAt(s, 3 * j) by {
          forall j | 1 <= j < n ensures EscapeAt(s, 3 * j) && rest[j - 1] == ByteAt(s, 3 * j) {
            EscapeAtTail(s, j - 1);
          }
        }
        Some([ByteAt(s, 0)] + rest)
  }

  /**
   * The character written by the escape sequence at the start of `s`, and
   * how many characters it takes; None where the Decode operation throws a
   * URIError (a malformed escape, a continuation or over-long lead byte, a
   * truncated or invalid UTF-8 sequence).
   */
  function DecodeEscape(s: string): (r: Option<(char, nat)>)
    ensures r.Some? ==> 3 <= r.value.1 <= |s|
  {
    if !EscapeAt(s, 0) then None
    else
      var n := LeadingOnes(ByteAt(s, 0));
      if n == 0 then Some((ByteAt(s, 0) as char, 3))
      else if n == 1 || n > 4 then None
      else
        match EscapedBytes(s, n)
        case None => None
        case Some(bytes) =>
          match Utf8Decode(bytes)
          case None => None
          case Some(c) => Some((c, 3 * n))
  }

  function Prepend(c: char, rest: Option<string>): Option<string> {
    match rest
    case None => None
    case Some(t) => Some([c] + t)
  }

  /** `decodeURIComponent(s)`; None where it throws a URIError. */
  function Decode(s: string): Option<string>
    decreases |s|
  {
    if s == "" then Some("")
    else if s[0] != '%' then Prepend(s[0], Decode(s[1..]))
    else
      match DecodeEscape(s)
      case None => None
      case Some((c, len)) => Prepend(c, Decode(s[len..]))
  }

  /** A string without `%` decodes to itself. */
  lemma {:induction false} DecodeWithoutPercent(s: string)
    requires Text.Lacks(s, '%')
    ensures Decode(s) == Some(s)
  {
    if s != "" {
      DecodeWithoutPercent(s[1..]);
      assert [s[0]] + s[1..] == s;
    }
  }

  /** The first escape of an escaped byte sequence reads back as its first byte. */
  lemma EscapeHead(bytes: seq<Byte>, t: string)
    requires bytes != []
    ensures EscapeAt(Escape(bytes) + t, 0) && ByteAt(Escape(bytes) + t, 0) == bytes[0]
  {
    var b := bytes[0];
    var e := Escape(bytes) + t;
    HexRoundTrip(b / 16);
    HexRoundTrip(b % 16);
    assert e[0] == '%' && e[1] == HexDigit(b / 16) && e[2] == HexDigit(b % 16);
  }

  /** After the first escape come the escapes of the remaining bytes. */
  lemma EscapeTail(bytes: seq<Byte>, t: string)
    requires bytes != []
    ensures (Escape(bytes) + t)[3..] == Escape(bytes[1..]) + t
  {
    var head := ['%', HexDigit(bytes[0] / 16), HexDigit(bytes[0] % 16)];
    assert Escape(bytes) + t == head + (Escape(bytes[1..]) + t);
  }

  lemma {:induction false} EscapedBytesOfEscape(bytes: seq<Byte>, t: string)
    ensures EscapedBytes(Escape(bytes) + t, |bytes|) == Some(bytes)
  {
    if bytes != [] {
      EscapeHead(bytes, t);
      EscapeTail(bytes, t);
      EscapedBytesOfEscape(bytes[1..], t);
      assert [bytes[0]] + bytes[1..] == bytes;
    }
  }

  lemma DecodeEncodeChar(c: char, t: string)
    ensures Decode(EncodeChar(c) + t) == Prepend(c, Decode(t))
  {
    var e := EncodeChar(c) + t;
    if IsUnescaped(c) {
      assert e[1..] == t;
    } else {
      var bytes := Utf8(c);
      Utf8RoundTrip(c);
      EscapedBytesOfEscape(bytes, t);
      assert e[3 * |bytes|..] == t;
      EscapeHead(bytes, t);
      assert DecodeEscape(e) == Some((c, 3 * |bytes|));
    }
  }

  /** Decoding undoes encoding: `decodeURIComponent(encodeURIComponent(s)) === s` for every string. */
  lemma {:induction false} DecodeEncode(s: string)
    ensures Decode(Encode(s)) == Some(s)
  {
    if s != "" {
      DecodeEncode(s[1..]);
      DecodeEncodeChar(s[0], Encode(s[1..]));
      assert [s[0]] + s[1..] == s;
    }
  }

  // ---------------------------------------------------------------------------
  // Query strings

  /**
   * The value of the first `name=value` pair of an `&`-separated query, decoded.
   * A pair without `=` has the empty value; None when no pair has that name or
   * its value does not decode.
   */
  function QueryParam(query: string, name: string): Option<string> {
    FirstValue(Text.Split(query, "&"), name)
  }

  function FirstValue(pairs: seq<string>, name: string): Option<string> {
    if pairs == [] then None
    else
      match Text.IndexOf(pairs[0], "=")
      case Some(i) => if pairs[0][..i] == name then Decode(pairs[0][i + 1..]) else FirstValue(pairs[1..], name)
      case None => if pairs[0] == name then Some("") else FirstValue(pairs[1..], name)
  }

  /** The pair `name=value` with an encoded value is read back as the value itself. */
  lemma PairValue(name: string, value: string)
    requires Text.Lacks(name, '=')
    ensures Text.IndexOf(name + "=" + Encode(value), "=") == Some(|name|)
    ensures (name + "=" + Encode(value))[..|name|] == name
    ensures (name + "=" + Encode(value))[|name| + 1..] == Encode(value)
  {
    FirstEquals(name, Encode(value));
  }

  /** The first `=` of `name=rest` is the one after the name, when the name has none. */
  lemma FirstEquals(name: string, rest: string)
    requires Text.Lacks(name, '=')
    ensures Text.IndexOf(name + "=" + rest, "=") == Some(|name|)
    ensures (name + "=" + rest)[..|name|] == name
    ensures (name + "=" + rest)[|name| + 1..] == rest
  {
    var p := name + "=" + rest;
    assert Text.OccursAt(p, "=", |name|) by {
      assert p[|name|..|name| + 1] == "=";
    }
    forall j: nat | j < |name| ensures !Text.OccursAt(p, "=", j) {
      assert p[j..j + 1] == [name[j]];
    }
    Text.IndexOfIsFirst(p, "=", |name|);
  }

  /** The query pair `name=value` with the value encoded. */
  function Pair(name: string, value: string): string {
    name + "=" + Encode(value)
  }

  /** The pairs of a query, one per name, in order. */
  function Pairs(names: seq<string>, values: seq<string>): (r: seq<string>)
    requires |names| == |values|
    ensures |r| == |names|
    ensures forall k :: 0 <= k < |r| ==> r[k] == Pair(names[k], values[k])
  {
    if names == [] then [] else [Pair(names[0], values[0])] + Pairs(names[1..], values[1..])
  }

  /** Each name is read back with its own value, provided no earlier pair has the same name. */
  lemma {:induction false} FirstValueOfPairs(names: seq<string>, values: seq<string>, k: nat)
    requires |names| == |values| && k < |names|
    requires forall i :: 0 <= i < |names| ==> Text.Lacks(names[i], '=')
    requires forall i :: 0 <= i < k ==> names[i] != names[k]
    ensures FirstValue(Pairs(names, values), names[k]) == Some(values[k])
    decreases k
  {
    var ps := Pairs(names, values);
    PairValue(names[0], values[0]);
    DecodeEncode(values[0]);
    if k > 0 {
      FirstValueOfPairs(names[1..], values[1..], k - 1);
      assert ps[1..] == Pairs(names[1..], values[1..]);
    }
  }

  /** Encoding leaves no character that is neither unescaped nor `%`. */
  lemma EncodedLacks(s: string, c: char)
    requires !IsUnescaped(c) && c != '%'
    ensures Text.Lacks(Encode(s), c)
  {
  }

  /** Pairs whose names avoid a character that encoding never leaves avoid it as a whole. */
  lemma PairsLack(names: seq<string>, values: seq<string>, c: char)
    requires |names| == |values|
    requires !IsUnescaped(c) && c != '%' && c != '='
    requires forall i :: 0 <= i < |names| ==> Text.Lacks(names[i], c)
    ensures forall k :: 0 <= k < |names| ==> Text.Lacks(Pairs(names, values)[k], c)
  {
    forall k | 0 <= k < |names| ensures Text.Lacks(Pairs(names, values)[k], c) {
      EncodedLacks(values[k], c);
      Text.LacksConcat(names[k], "=", c);
      Text.LacksConcat(names[k] + "=", Encode(values[k]), c);
    }
  }

  /**
   * A query written as `&`-joined pairs splits back into those pairs, and each
   * name reads back as its own value when no earlier pair has the same name.
   */
  lemma QueryReadsBack(names: seq<string>, values: seq<string>, k: nat)
    requires |names| == |values| && k < |names|
    requires forall i :: 0 <= i < |names| ==> Text.Lacks(names[i], '=') && Text.Lacks(names[i], '&')
    requires forall i :: 0 <= i < k ==> names[i] != names[k]
    ensures Text.Split(Text.Join(Pairs(names, values), "&"), "&") == Pairs(names, values)
    ensures QueryParam(Text.Join(Pairs(names, values), "&"), names[k]) == Some(values[k])
  {
    PairsLack(names, values, '&');
    Text.SplitJoinChar(Pairs(names, values), '&');
    FirstValueOfPairs(names, values, k);
  }
}
