/**
 JSON values, the printer behind every canonical artifact, and the strict parser that re-reads them.

 Objects keep their members in insertion order, as dictionaries do; floating-point numbers are not
 represented.
 */
module CanonicalJson {
  import opened Wrappers
  import opened Utf8

  datatype Json =
    | Null
    | Bool(b: bool)
    | Int(i: int)
    | Str(text: Text)
    | Arr(items: seq<Json>)
    | Obj(members: seq<Member>)

  datatype Member = Member(key: Text, value: Json)

  predicate DistinctKeys(members: seq<Member>) {
    forall i, j :: 0 <= i < j < |members| ==> members[i].key != members[j].key
  }

  /** Every object in the value is a dictionary: no key twice. */
  predicate Distinct(v: Json) {
    match v
    case Arr(items) => forall i :: 0 <= i < |items| ==> Distinct(items[i])
    case Obj(members) =>
      && DistinctKeys(members)
      && forall i :: 0 <= i < |members| ==> Distinct(members[i].value)
    case _ => true
  }

  // ---------------------------------------------------------------- printing

  const NULL_TEXT: Text := [110, 117, 108, 108]
  const TRUE_TEXT: Text := [116, 114, 117, 101]
  const FALSE_TEXT: Text := [102, 97, 108, 115, 101]

  const QUOTE := 34
  const COMMA := 44
  const MINUS := 45
  const COLON := 58
  const OPEN_LIST := 91
  const BACKSLASH := 92
  const CLOSE_LIST := 93
  const OPEN_OBJECT := 123
  const CLOSE_OBJECT := 125

  function Digits(n: nat): (digits: Text)
    ensures |digits| > 0
  {
    if n < 10 then [48 + n] else Digits(n / 10) + [48 + n % 10]
  }

  function EmitInt(i: int): Text {
    if i < 0 then [MINUS] + Digits(-i) else Digits(i)
  }

  function HexDigit(h: int): int {
    if h < 10 then 48 + h else 87 + h
  }

  /** `json.dumps(..., ensure_ascii=False)` escapes the quote, the backslash and C0 controls only. */
  function EmitChar(c: int): (emitted: Text)
    ensures |emitted| > 0
  {
    if c == 34 || c == 92 then [BACKSLASH, c]
    else if c == 8 then [BACKSLASH, 98]
    else if c == 9 then [BACKSLASH, 116]
    else if c == 10 then [BACKSLASH, 110]
    else if c == 12 then [BACKSLASH, 102]
    else if c == 13 then [BACKSLASH, 114]
    else if 0 <= c < 0x20 then [BACKSLASH, 117, 48, 48, HexDigit(c / 16), HexDigit(c % 16)]
    else [c]
  }

  function EmitChars(text: Text): Text {
    if text == [] then [] else EmitChar(text[0]) + EmitChars(text[1..])
  }

  function EmitString(text: Text): Text {
    [QUOTE] + EmitChars(text) + [QUOTE]
  }

  /** The compact encoding, members in the order they are stored. */
  function Emit(v: Json): Text
    decreases v, 1
  {
    match v
    case Null => NULL_TEXT
    case Bool(b) => if b then TRUE_TEXT else FALSE_TEXT
    case Int(i) => EmitInt(i)
    case Str(text) => EmitString(text)
    case Arr(items) => [OPEN_LIST] + EmitItems(items) + [CLOSE_LIST]
    case Obj(members) => [OPEN_OBJECT] + EmitMembers(members) + [CLOSE_OBJECT]
  }

  function EmitItems(items: seq<Json>): Text
    decreases items, 0
  {
    if items == [] then []
    else if |items| == 1 then Emit(items[0])
    else Emit(items[0]) + [COMMA] + EmitItems(items[1..])
  }

  function EmitMember(member: Member): Text
    decreases member, 0
  {
    EmitString(member.key) + [COLON] + Emit(member.value)
  }

  function EmitMembers(members: seq<Member>): Text
    decreases members, 0
  {
    if members == [] then []
    else if |members| == 1 then EmitMember(members[0])
    else EmitMember(members[0]) + [COMMA] + EmitMembers(members[1..])
  }

  // ---------------------------------------------------------------- key order

  /** The two sort keys in use: code points, or UTF-16BE bytes (section 3.2.3 of RFC 8785). */
  datatype KeyOrder = CodePoints | Utf16Units

  predicate KeyLess(order: KeyOrder, a: Text, b: Text) {
    match order
    case CodePoints => Less(a, b)
    case Utf16Units => Less(Utf16(a), Utf16(b))
  }

  function Insert(order: KeyOrder, member: Member, members: seq<Member>): seq<Member> {
    if members == [] then [member]
    else if KeyLess(order, member.key, members[0].key) then [member] + members
    else [members[0]] + Insert(order, member, members[1..])
  }

  function Sort(order: KeyOrder, members: seq<Member>): seq<Member> {
    if members == [] then [] else Insert(order, members[0], Sort(order, members[1..]))
  }

  /** The value with the members of every object in key order. */
  function Normal(order: KeyOrder, v: Json): Json
    decreases v, 1
  {
    match v
    case Arr(items) => Arr(NormalItems(order, items))
    case Obj(members) => Obj(Sort(order, NormalMembers(order, members)))
    case _ => v
  }

  function NormalItems(order: KeyOrder, items: seq<Json>): (normal: seq<Json>)
    ensures |normal| == |items|
    decreases items, 0
  {
    seq(|items|, i requires 0 <= i < |items| => Normal(order, items[i]))
  }

  function NormalMembers(order: KeyOrder, members: seq<Member>): (normal: seq<Member>)
    ensures |normal| == |members|
    decreases members, 0
  {
    seq(|members|, i requires 0 <= i < |members| =>
      Member(members[i].key, Normal(order, members[i].value)))
  }

  /** `json.dumps(v, sort_keys=True, ensure_ascii=False, separators=(",", ":"))`. */
  function Print(order: KeyOrder, v: Json): Text {
    Emit(Normal(order, v))
  }

  // ---------------------------------------------------------------- parsing

  datatype Parsed<+T> = Fail | Done(value: T, rest: Text)

  predicate Space(c: int) {
    c == 32 || c == 9 || c == 10 || c == 13
  }

  function SkipSpace(s: Text): (r: Text)
    ensures |r| <= |s|
  {
    if s != [] && Space(s[0]) then SkipSpace(s[1..]) else s
  }

  predicate Digit(c: int) {
    48 <= c <= 57
  }

  predicate Starts(s: Text, c: int) {
    s != [] && s[0] == c
  }

  function ScanDigits(s: Text, value: nat): (r: (nat, Text))
    ensures |r.1| <= |s|
  {
    if s != [] && Digit(s[0]) then ScanDigits(s[1..], value * 10 + (s[0] - 48)) else (value, s)
  }

  /** `0|[1-9][0-9]*` */
  function ParseNat(s: Text): (r: Parsed<nat>)
    ensures r.Done? ==> |r.rest| < |s|
  {
    if s == [] || !Digit(s[0]) then Fail
    else if s[0] == 48 then Done(0, s[1..])
    else
      var r := ScanDigits(s[1..], s[0] - 48);
      Done(r.0, r.1)
  }

  function HexValue(c: int): (h: Option<int>)
    ensures h.Some? ==> 0 <= h.value < 16
  {
    if 48 <= c <= 57 then Some(c - 48)
    else if 97 <= c <= 102 then Some(c - 87)
    else if 65 <= c <= 70 then Some(c - 55)
    else None
  }

  /** The four hexadecimal digits after `\u`. */
  function Hex4(s: Text): Option<int> {
    if |s| < 4 then None
    else
      var a, b, c, d := HexValue(s[0]), HexValue(s[1]), HexValue(s[2]), HexValue(s[3]);
      if a.Some? && b.Some? && c.Some? && d.Some? then
        Some(a.value * 4096 + b.value * 256 + c.value * 16 + d.value)
      else None
  }

  datatype Escape = BadEscape | Escaped(code: int, length: nat)

  /** What follows a backslash; a high surrogate joins a directly following escaped low one. */
  function ParseEscape(s: Text): (e: Escape)
    ensures e.Escaped? ==> 1 <= e.length <= |s|
  {
    if s == [] then BadEscape
    else if s[0] == 34 || s[0] == 92 || s[0] == 47 then Escaped(s[0], 1)
    else if s[0] == 98 then Escaped(8, 1)
    else if s[0] == 102 then Escaped(12, 1)
    else if s[0] == 110 then Escaped(10, 1)
    else if s[0] == 114 then Escaped(13, 1)
    else if s[0] == 116 then Escaped(9, 1)
    else if s[0] == 117 then
      var high := Hex4(s[1..]);
      if high.None? then BadEscape
      else if 0xD800 <= high.value < 0xDC00 && |s| >= 11 && s[5] == BACKSLASH && s[6] == 117 then
        var low := Hex4(s[7..]);
        if low.None? then BadEscape
        else if 0xDC00 <= low.value < 0xE000 then
          Escaped(0x1_0000 + (high.value - 0xD800) * 0x400 + (low.value - 0xDC00), 11)
        else Escaped(high.value, 5)
      else Escaped(high.value, 5)
    else BadEscape
  }

  /** The rest of a string after its opening quote. */
  function ParseString(s: Text): (r: Parsed<Text>)
    ensures r.Done? ==> |r.rest| < |s|
    decreases |s|
  {
    if s == [] then Fail
    else if s[0] == QUOTE then Done([], s[1..])
    else if s[0] == BACKSLASH then
      var e := ParseEscape(s[1..]);
      if e.BadEscape? then Fail
      else
        var tail := ParseString(s[1 + e.length..]);
        if tail.Fail? then Fail else Done([e.code] + tail.value, tail.rest)
    else if 0 <= s[0] < 0x20 then Fail
    else
      var tail := ParseString(s[1..]);
      if tail.Fail? then Fail else Done([s[0]] + tail.value, tail.rest)
  }

  /** One value; every dictionary is built by a hook that refuses a repeated key. */
  function ParseValue(s: Text): (r: Parsed<Json>)
    ensures r.Done? ==> |r.rest| < |s| && Distinct(r.value)
    decreases |s|, 0
  {
    if s == [] then Fail
    else if s[0] == QUOTE then
      var text := ParseString(s[1..]);
      if text.Fail? then Fail else Done(Str(text.value), text.rest)
    else if s[0] == OPEN_LIST then
      var r := SkipSpace(s[1..]);
      if Starts(r, CLOSE_LIST) then Done(Arr([]), r[1..])
      else
        var items := ParseItems(r);
        if items.Fail? then Fail else Done(Arr(items.value), items.rest)
    else if s[0] == OPEN_OBJECT then
      var r := SkipSpace(s[1..]);
      if Starts(r, CLOSE_OBJECT) then Done(Obj([]), r[1..])
      else
        var members := ParseMembers(r);
        if members.Done? && DistinctKeys(members.value) then Done(Obj(members.value), members.rest)
        else Fail
    else if NULL_TEXT <= s then Done(Null, s[4..])
    else if TRUE_TEXT <= s then Done(Bool(true), s[4..])
    else if FALSE_TEXT <= s then Done(Bool(false), s[5..])
    else if s[0] == MINUS then
      var n := ParseNat(s[1..]);
      if n.Fail? then Fail else Done(Int(0 - n.value), n.rest)
    else
      var n := ParseNat(s);
      if n.Fail? then Fail else Done(Int(n.value), n.rest)
  }

  /** The elements of a non-empty list and its closing bracket. */
  function ParseItems(s: Text): (r: Parsed<seq<Json>>)
    ensures r.Done? ==> |r.rest| < |s| && forall i :: 0 <= i < |r.value| ==> Distinct(r.value[i])
    decreases |s|, 1
  {
    var first := ParseValue(s);
    if first.Fail? then Fail
    else
      var after := SkipSpace(first.rest);
      if Starts(after, CLOSE_LIST) then Done([first.value], after[1..])
      else if Starts(after, COMMA) then
        var others := ParseItems(SkipSpace(after[1..]));
        if others.Fail? then Fail else Done([first.value] + others.value, others.rest)
      else Fail
  }

  /** A key, its colon and its value. */
  function ParseMember(s: Text): (r: Parsed<Member>)
    ensures r.Done? ==> |r.rest| < |s| && Distinct(r.value.value)
    decreases |s|, 1
  {
    if !Starts(s, QUOTE) then Fail
    else
      var key := ParseString(s[1..]);
      if key.Fail? then Fail
      else
        var after := SkipSpace(key.rest);
        if !Starts(after, COLON) then Fail
        else
          var value := ParseValue(SkipSpace(after[1..]));
          if value.Fail? then Fail else Done(Member(key.value, value.value), value.rest)
  }

  /** The members of a non-empty object and its closing brace. */
  function ParseMembers(s: Text): (r: Parsed<seq<Member>>)
    ensures r.Done? ==> |r.rest| < |s| && forall i :: 0 <= i < |r.value| ==> Distinct(r.value[i].value)
    decreases |s|, 2
  {
    var first := ParseMember(s);
    if first.Fail? then Fail
    else
      var after := SkipSpace(first.rest);
      if Starts(after, CLOSE_OBJECT) then Done([first.value], after[1..])
      else if Starts(after, COMMA) then
        var others := ParseMembers(SkipSpace(after[1..]));
        if others.Fail? then Fail else Done([first.value] + others.value, others.rest)
      else Fail
  }

  /** `json.loads(text, object_pairs_hook=...)`. */
  function Parse(text: Text): (v: Option<Json>)
    ensures v.Some? ==> Distinct(v.value)
  {
    var r := ParseValue(SkipSpace(text));
    if r.Done? && SkipSpace(r.rest) == [] then Some(r.value) else None
  }
}
