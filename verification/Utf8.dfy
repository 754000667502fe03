/**
 UTF-8 and UTF-16BE as the canonical encoders use them.  Text is a sequence of code points, lone
 surrogates included, because that is what a decoded JSON string can hold.
 */
module Utf8 {
  import opened Wrappers

  type Text = seq<int>
  type Bytes = seq<int>

  predicate Scalar(c: int) {
    0 <= c < 0x11_0000 && !(0xD800 <= c < 0xE000)
  }

  predicate Scalars(text: Text) {
    forall i :: 0 <= i < |text| ==> Scalar(text[i])
  }

  function EncodeCode(c: int): (bytes: Bytes)
    requires Scalar(c)
    ensures 1 <= |bytes| <= 4
  {
    if c < 0x80 then [c]
    else if c < 0x800 then [0xC0 + c / 64, 0x80 + c % 64]
    else if c < 0x1_0000 then [0xE0 + c / 4096, 0x80 + c / 64 % 64, 0x80 + c % 64]
    else [0xF0 + c / 262_144, 0x80 + c / 4096 % 64, 0x80 + c / 64 % 64, 0x80 + c % 64]
  }

  function EncodeAll(text: Text): Bytes
    requires Scalars(text)
  {
    if text == [] then [] else EncodeCode(text[0]) + EncodeAll(text[1..])
  }

  /** `text.encode("utf-8")`, which refuses surrogates. */
  function Encode(text: Text): Option<Bytes> {
    if Scalars(text) then Some(EncodeAll(text)) else None
  }

  predicate Continuation(b: int) {
    0x80 <= b < 0xC0
  }

  datatype Decoded = Malformed | Code(code: int, length: nat)

  /** One code point: shortest form only, no surrogates, nothing above U+10FFFF. */
  function DecodeCode(bytes: Bytes): (decoded: Decoded)
    requires bytes != []
    ensures decoded.Code? ==> 1 <= decoded.length <= |bytes|
  {
    var a := bytes[0];
    if 0 <= a < 0x80 then Code(a, 1)
    else if 0xC2 <= a < 0xE0 && |bytes| >= 2 && Continuation(bytes[1]) then
      Code((a - 0xC0) * 64 + bytes[1] - 0x80, 2)
    else if 0xE0 <= a < 0xF0 && |bytes| >= 3 && Continuation(bytes[1]) && Continuation(bytes[2]) then
      var c := (a - 0xE0) * 4096 + (bytes[1] - 0x80) * 64 + bytes[2] - 0x80;
      if c >= 0x800 && Scalar(c) then Code(c, 3) else Malformed
    else if 0xF0 <= a < 0xF5 && |bytes| >= 4 && Continuation(bytes[1]) && Continuation(bytes[2])
      && Continuation(bytes[3]) then
      var c := (a - 0xF0) * 262_144 + (bytes[1] - 0x80) * 4096 + (bytes[2] - 0x80) * 64 + bytes[3] - 0x80;
      if c >= 0x1_0000 && Scalar(c) then Code(c, 4) else Malformed
    else Malformed
  }

  /** `bytes.decode("utf-8", errors="strict")`. */
  function Decode(bytes: Bytes): Option<Text> {
    if bytes == [] then Some([])
    else
      var first := DecodeCode(bytes);
      if first.Malformed? then None
      else
        var rest := Decode(bytes[first.length..]);
        if rest.None? then None else Some([first.code] + rest.value)
  }

  /** A code point is its base-64 digits. */
  lemma {:induction false} Base64Digits(c: int)
    requires 0 <= c
    ensures c == c / 64 * 64 + c % 64
    ensures c == c / 4096 * 4096 + c / 64 % 64 * 64 + c % 64
    ensures c == c / 262_144 * 262_144 + c / 4096 % 64 * 4096 + c / 64 % 64 * 64 + c % 64
  {
    assert c / 64 / 64 == c / 4096;
    assert c / 4096 / 64 == c / 262_144;
  }

  lemma {:induction false} FromBase64Digits(h: int, m: int, n: int, l: int)
    requires 0 <= h && 0 <= m < 64 && 0 <= n < 64 && 0 <= l < 64
    ensures var c := h * 262_144 + m * 4096 + n * 64 + l;
            && c % 64 == l && c / 64 % 64 == n && c / 4096 % 64 == m && c / 262_144 == h
            && c / 64 == h * 4096 + m * 64 + n && c / 4096 == h * 64 + m
  {
    var c := h * 262_144 + m * 4096 + n * 64 + l;
    assert c / 64 == h * 4096 + m * 64 + n;
    assert c / 64 / 64 == h * 64 + m;
    assert c / 64 / 64 / 64 == h;
  }

  lemma {:induction false} DecodeEncodeCode(c: int, rest: Bytes)
    requires Scalar(c)
    ensures DecodeCode(EncodeCode(c) + rest) == Code(c, |EncodeCode(c)|)
  {
    Base64Digits(c);
    var bytes := EncodeCode(c) + rest;
    if 0x80 <= c < 0x800 {
      assert bytes[0] == 0xC0 + c / 64 && bytes[1] == 0x80 + c % 64;
    } else if 0x800 <= c < 0x1_0000 {
      assert bytes[0] == 0xE0 + c / 4096 && bytes[1] == 0x80 + c / 64 % 64 && bytes[2] == 0x80 + c % 64;
    } else if 0x1_0000 <= c {
      assert bytes[0] == 0xF0 + c / 262_144 && bytes[1] == 0x80 + c / 4096 % 64;
      assert bytes[2] == 0x80 + c / 64 % 64 && bytes[3] == 0x80 + c % 64;
    }
  }

  lemma {:induction false} EncodeTwo(h: int, l: int)
    requires 2 <= h < 32 && 0 <= l < 64
    ensures EncodeCode(h * 64 + l) == [0xC0 + h, 0x80 + l]
  {
    FromBase64Digits(0, 0, h, l);
  }

  lemma {:induction false} EncodeThree(h: int, m: int, l: int)
    requires 0 <= h < 16 && 0 <= m < 64 && 0 <= l < 64
    requires h * 4096 + m * 64 + l >= 0x800 && Scalar(h * 4096 + m * 64 + l)
    ensures EncodeCode(h * 4096 + m * 64 + l) == [0xE0 + h, 0x80 + m, 0x80 + l]
  {
    FromBase64Digits(0, h, m, l);
  }

  lemma {:induction false} EncodeFour(h: int, m: int, n: int, l: int)
    requires 0 <= h < 5 && 0 <= m < 64 && 0 <= n < 64 && 0 <= l < 64
    requires 0x1_0000 <= h * 262_144 + m * 4096 + n * 64 + l < 0x11_0000
    ensures EncodeCode(h * 262_144 + m * 4096 + n * 64 + l) == [0xF0 + h, 0x80 + m, 0x80 + n, 0x80 + l]
  {
    FromBase64Digits(h, m, n, l);
  }

  lemma {:induction false} EncodeDecodeCode(bytes: Bytes)
    requires bytes != [] && DecodeCode(bytes).Code?
    ensures Scalar(DecodeCode(bytes).code)
    ensures bytes[..DecodeCode(bytes).length] == EncodeCode(DecodeCode(bytes).code)
  {
    var first := DecodeCode(bytes);
    if first.length == 2 {
      EncodeTwo(bytes[0] - 0xC0, bytes[1] - 0x80);
    } else if first.length == 3 {
      EncodeThree(bytes[0] - 0xE0, bytes[1] - 0x80, bytes[2] - 0x80);
    } else if first.length == 4 {
      EncodeFour(bytes[0] - 0xF0, bytes[1] - 0x80, bytes[2] - 0x80, bytes[3] - 0x80);
    }
  }

  lemma {:induction false} DecodeEncode(text: Text)
    requires Scalars(text)
    ensures Decode(EncodeAll(text)) == Some(text)
  {
    if text != [] {
      var head, tail := EncodeCode(text[0]), EncodeAll(text[1..]);
      DecodeEncode(text[1..]);
      DecodeEncodeCode(text[0], tail);
      assert (head + tail)[|head|..] == tail;
      assert [text[0]] + text[1..] == text;
    }
  }

  lemma {:induction false} EncodeStep(c: int, rest: Text)
    requires Scalar(c) && Scalars(rest)
    ensures Scalars([c] + rest)
    ensures EncodeAll([c] + rest) == EncodeCode(c) + EncodeAll(rest)
  {
    assert ([c] + rest)[1..] == rest;
  }

  lemma {:induction false} EncodeDecode(bytes: Bytes, text: Text)
    requires Decode(bytes) == Some(text)
    ensures Scalars(text) && EncodeAll(text) == bytes
  {
    if bytes != [] {
      var first := DecodeCode(bytes);
      var rest := bytes[first.length..];
      var tail := Decode(rest).value;
      assert bytes == bytes[..first.length] + rest;
      EncodeDecodeCode(bytes);
      EncodeDecode(rest, tail);
      EncodeStep(first.code, tail);
    }
  }

  /** Strict decoding accepts exactly the encoder's image and is its inverse. */
  lemma {:induction false} DecodeIffEncode(bytes: Bytes, text: Text)
    ensures Decode(bytes) == Some(text) <==> Encode(text) == Some(bytes)
  {
    if Decode(bytes) == Some(text) {
      EncodeDecode(bytes, text);
    }
    if Scalars(text) {
      DecodeEncode(text);
    }
  }

  // ---------------------------------------------------------------- the two key orders

  /** Lexicographic order of two number strings. */
  predicate Less(a: seq<int>, b: seq<int>) {
    b != [] && (a == [] || a[0] < b[0] || (a[0] == b[0] && Less(a[1..], b[1..])))
  }

  function Unit(u: int): Bytes {
    [u / 256, u % 256]
  }

  function LeadUnit(c: int): int {
    if c < 0x1_0000 then c else 0xD800 + (c - 0x1_0000) / 0x400
  }

  function TrailUnit(c: int): int {
    0xDC00 + (c - 0x1_0000) % 0x400
  }

  function Utf16Code(c: int): Bytes {
    if c < 0x1_0000 then Unit(c) else Unit(LeadUnit(c)) + Unit(TrailUnit(c))
  }

  /** `key.encode("utf-16be")`. */
  function Utf16(text: Text): Bytes {
    if text == [] then [] else Utf16Code(text[0]) + Utf16(text[1..])
  }

  /** U+E000..U+FFFF sort above the supplementary planes in UTF-16 and below them by code point. */
  predicate Inverted(c: int, d: int) {
    (0xE000 <= c < 0x1_0000 <= d) || (0xE000 <= d < 0x1_0000 <= c)
  }

  /** The first code points that differ are an inverted pair. */
  predicate OrdersDiffer(a: Text, b: Text) {
    a != [] && b != [] && (if a[0] == b[0] then OrdersDiffer(a[1..], b[1..]) else Inverted(a[0], b[0]))
  }

  lemma {:induction false} LessCommonPrefix(p: seq<int>, a: seq<int>, b: seq<int>)
    ensures Less(p + a, p + b) <==> Less(a, b)
  {
    if p == [] {
      assert p + a == a && p + b == b;
    } else {
      LessCommonPrefix(p[1..], a, b);
      assert (p + a)[1..] == p[1..] + a && (p + b)[1..] == p[1..] + b;
    }
  }

  lemma {:induction false} UnitOrder(u: int, v: int, x: Bytes, y: Bytes)
    requires 0 <= u < 0x1_0000 && 0 <= v < 0x1_0000 && u != v
    ensures Less(Unit(u) + x, Unit(v) + y) <==> u < v
  {
    var p, q := Unit(u) + x, Unit(v) + y;
    assert u == u / 256 * 256 + u % 256 && v == v / 256 * 256 + v % 256;
    assert p[0] == u / 256 && q[0] == v / 256;
    assert p[1..][0] == u % 256 && q[1..][0] == v % 256;
  }

  /** Encoded code points are compared before the bytes that follow them. */
  lemma {:induction false} Utf16CodeOrder(c: int, d: int, x: Bytes, y: Bytes)
    requires Scalar(c) && Scalar(d) && c != d
    ensures Less(Utf16Code(c) + x, Utf16Code(d) + y) <==> (if Inverted(c, d) then d < c else c < d)
  {
    var moreC := if c < 0x1_0000 then [] else Unit(TrailUnit(c));
    var moreD := if d < 0x1_0000 then [] else Unit(TrailUnit(d));
    assert Utf16Code(c) + x == Unit(LeadUnit(c)) + (moreC + x);
    assert Utf16Code(d) + y == Unit(LeadUnit(d)) + (moreD + y);
    if LeadUnit(c) == LeadUnit(d) {
      LessCommonPrefix(Unit(LeadUnit(c)), moreC + x, moreD + y);
      UnitOrder(TrailUnit(c), TrailUnit(d), x, y);
    } else {
      UnitOrder(LeadUnit(c), LeadUnit(d), moreC + x, moreD + y);
    }
  }

  /** The UTF-16 order is the code-point order except on keys that first differ in an inverted pair. */
  lemma {:induction false} KeyOrders(a: Text, b: Text)
    requires Scalars(a) && Scalars(b) && a != b
    ensures Less(Utf16(a), Utf16(b)) <==> (if OrdersDiffer(a, b) then Less(b, a) else Less(a, b))
  {
    if a != [] && b != [] {
      if a[0] == b[0] {
        assert a == [a[0]] + a[1..] && b == [b[0]] + b[1..];
        KeyOrders(a[1..], b[1..]);
        LessCommonPrefix(Utf16Code(a[0]), Utf16(a[1..]), Utf16(b[1..]));
      } else {
        Utf16CodeOrder(a[0], b[0], Utf16(a[1..]), Utf16(b[1..]));
      }
    }
  }

  lemma {:induction false} LessTotal(a: seq<int>, b: seq<int>)
    ensures Less(a, b) || a == b || Less(b, a)
    ensures !(Less(a, b) && Less(b, a)) && !Less(a, a)
  {
    if a != [] {
      LessTotal(a[1..], if b == [] then [] else b[1..]);
      LessTotal(a[1..], a[1..]);
      if b != [] && a[0] == b[0] {
        assert a == [a[0]] + a[1..] && b == [b[0]] + b[1..];
      }
    }
  }

  lemma {:induction false} LessTransitive(a: seq<int>, b: seq<int>, c: seq<int>)
    requires Less(a, b) && Less(b, c)
    ensures Less(a, c)
  {
    if a != [] && a[0] == b[0] == c[0] {
      LessTransitive(a[1..], b[1..], c[1..]);
    }
  }

  lemma {:induction false} BasicPlaneAgrees(a: Text, b: Text)
    requires forall i :: 0 <= i < |a| ==> a[i] < 0x1_0000
    requires forall i :: 0 <= i < |b| ==> b[i] < 0x1_0000
    ensures !OrdersDiffer(a, b)
  {
    if a != [] && b != [] {
      BasicPlaneAgrees(a[1..], b[1..]);
    }
  }
}
