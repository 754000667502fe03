/** The strict parser undoes the printer, and the canonical bytes identify the value. */
module JsonRoundTrip {
  import opened Wrappers
  import opened Utf8
  import opened CanonicalJson

  // ---------------------------------------------------------------- numbers and strings

  lemma {:induction false} ScanDigitsOfNumber(n: nat, rest: Text)
    ensures ScanDigits(Digits(n) + rest, 0) == ScanDigits(rest, n)
  {
    if n < 10 {
      assert ([48 + n] + rest)[1..] == rest;
    } else {
      var last := [48 + n % 10] + rest;
      ScanDigitsOfNumber(n / 10, last);
      assert Digits(n) + rest == Digits(n / 10) + last;
      assert last[1..] == rest;
    }
  }

  lemma {:induction false} FirstDigit(n: nat)
    ensures Digit(Digits(n)[0]) && (n > 0 ==> Digits(n)[0] != 48)
    ensures n == 0 ==> Digits(n) == [48]
  {
    if n >= 10 {
      FirstDigit(n / 10);
    }
  }

  predicate NoDigit(rest: Text) {
    rest == [] || !Digit(rest[0])
  }

  lemma {:induction false} ParseNatOfNumber(n: nat, rest: Text)
    requires NoDigit(rest)
    ensures ParseNat(Digits(n) + rest) == Done(n, rest)
  {
    var s := Digits(n) + rest;
    FirstDigit(n);
    if n == 0 {
      assert s[1..] == rest;
    } else {
      ScanDigitsOfNumber(n, rest);
      assert ScanDigits(s, 0) == ScanDigits(s[1..], s[0] - 48);
    }
  }

  lemma {:induction false} ParseEscaped(c: int, rest: Text)
    requires c == 34 || c == 92 || 0 <= c < 0x20
    ensures var s := (EmitChar(c) + rest)[1..];
            ParseEscape(s) == Escaped(c, |EmitChar(c)| - 1)
  {
    var s := (EmitChar(c) + rest)[1..];
    if |EmitChar(c)| == 6 {
      assert s[1..][0] == 48 && s[1..][1] == 48;
      assert s[1..][2] == HexDigit(c / 16) && s[1..][3] == HexDigit(c % 16);
      assert Hex4(s[1..]) == Some(c);
    }
  }

  lemma {:induction false} ParseEmittedChars(text: Text, rest: Text)
    ensures ParseString(EmitChars(text) + [QUOTE] + rest) == Done(text, rest)
  {
    if text == [] {
      assert EmitChars(text) + [QUOTE] + rest == [QUOTE] + rest;
    } else {
      var c, tail := text[0], EmitChars(text[1..]) + [QUOTE] + rest;
      var s := EmitChars(text) + [QUOTE] + rest;
      assert s == EmitChar(c) + tail;
      assert s[|EmitChar(c)|..] == tail;
      assert [c] + text[1..] == text;
      ParseEmittedChars(text[1..], rest);
      if c == 34 || c == 92 || 0 <= c < 0x20 {
        ParseEscaped(c, tail);
      }
    }
  }

  // ---------------------------------------------------------------- values

  /** The first character of an emitted value decides the branch of the parser. */
  lemma {:induction false} EmitStarts(v: Json)
    ensures Emit(v) != [] && !Space(Emit(v)[0]) && Emit(v)[0] != CLOSE_LIST
  {
    if v.Int? {
      FirstDigit(if v.i < 0 then -v.i else v.i);
    }
  }

  lemma {:induction false} NoSpaceToSkip(s: Text, rest: Text)
    requires s != [] && !Space(s[0])
    ensures SkipSpace(s + rest) == s + rest
  {
  }

  lemma {:induction false} ParseNegative(n: nat, rest: Text)
    requires NoDigit(rest)
    ensures ParseValue([MINUS] + (Digits(n) + rest)) == Done(Int(0 - n), rest)
  {
    assert ([MINUS] + (Digits(n) + rest))[1..] == Digits(n) + rest;
    ParseNatOfNumber(n, rest);
  }

  lemma {:induction false} ParseNonNegative(n: nat, rest: Text)
    requires NoDigit(rest)
    ensures ParseValue(Digits(n) + rest) == Done(Int(n), rest)
  {
    FirstDigit(n);
    assert (Digits(n) + rest)[0] == Digits(n)[0];
    ParseNatOfNumber(n, rest);
  }

  lemma {:induction false} ParseEmittedInt(i: int, rest: Text)
    requires NoDigit(rest)
    ensures ParseValue(EmitInt(i) + rest) == Done(Int(i), rest)
  {
    if i < 0 {
      ParseNegative(-i, rest);
      assert EmitInt(i) + rest == [MINUS] + (Digits(-i) + rest);
    } else {
      ParseNonNegative(i, rest);
    }
  }

  // One parser step each, for pieces that are already known to parse.

  lemma {:induction false} ParseList(body: Text, items: seq<Json>, rest: Text)
    requires SkipSpace(body) == body && !Starts(body, CLOSE_LIST) && ParseItems(body) == Done(items, rest)
    ensures ParseValue([OPEN_LIST] + body) == Done(Arr(items), rest)
  {
    assert ([OPEN_LIST] + body)[1..] == body;
  }

  lemma {:induction false} ParseObject(body: Text, members: seq<Member>, rest: Text)
    requires SkipSpace(body) == body && !Starts(body, CLOSE_OBJECT)
    requires ParseMembers(body) == Done(members, rest) && DistinctKeys(members)
    ensures ParseValue([OPEN_OBJECT] + body) == Done(Obj(members), rest)
  {
    assert ([OPEN_OBJECT] + body)[1..] == body;
  }

  lemma {:induction false} ParseEmpty(rest: Text)
    ensures ParseValue([OPEN_LIST, CLOSE_LIST] + rest) == Done(Arr([]), rest)
    ensures ParseValue([OPEN_OBJECT, CLOSE_OBJECT] + rest) == Done(Obj([]), rest)
  {
    assert ([OPEN_LIST, CLOSE_LIST] + rest)[1..] == [CLOSE_LIST] + rest;
    assert ([OPEN_OBJECT, CLOSE_OBJECT] + rest)[1..] == [CLOSE_OBJECT] + rest;
    assert ([CLOSE_LIST] + rest)[1..] == rest && ([CLOSE_OBJECT] + rest)[1..] == rest;
  }

  lemma {:induction false} ParseLiteral(rest: Text)
    ensures ParseValue(NULL_TEXT + rest) == Done(Null, rest)
    ensures ParseValue(TRUE_TEXT + rest) == Done(Bool(true), rest)
    ensures ParseValue(FALSE_TEXT + rest) == Done(Bool(false), rest)
  {
    assert (NULL_TEXT + rest)[4..] == (TRUE_TEXT + rest)[4..] == (FALSE_TEXT + rest)[5..] == rest;
  }

  lemma {:induction false} ParseText(text: Text, rest: Text)
    ensures ParseValue(EmitString(text) + rest) == Done(Str(text), rest)
  {
    assert (EmitString(text) + rest)[1..] == EmitChars(text) + [QUOTE] + rest;
    ParseEmittedChars(text, rest);
  }

  lemma {:induction false} LastItem(s: Text, v: Json, rest: Text)
    requires ParseValue(s) == Done(v, [CLOSE_LIST] + rest)
    ensures ParseItems(s) == Done([v], rest)
  {
    assert ([CLOSE_LIST] + rest)[1..] == rest;
  }

  lemma {:induction false} NextItem(s: Text, v: Json, tail: Text, others: seq<Json>, rest: Text)
    requires ParseValue(s) == Done(v, [COMMA] + tail)
    requires SkipSpace(tail) == tail && ParseItems(tail) == Done(others, rest)
    ensures ParseItems(s) == Done([v] + others, rest)
  {
    assert ([COMMA] + tail)[1..] == tail;
  }

  lemma {:induction false} LastMember(s: Text, m: Member, rest: Text)
    requires ParseMember(s) == Done(m, [CLOSE_OBJECT] + rest)
    ensures ParseMembers(s) == Done([m], rest)
  {
    assert ([CLOSE_OBJECT] + rest)[1..] == rest;
  }

  lemma {:induction false} NextMember(s: Text, m: Member, tail: Text, others: seq<Member>, rest: Text)
    requires ParseMember(s) == Done(m, [COMMA] + tail)
    requires SkipSpace(tail) == tail && ParseMembers(tail) == Done(others, rest)
    ensures ParseMembers(s) == Done([m] + others, rest)
  {
    assert ([COMMA] + tail)[1..] == tail;
  }

  lemma {:induction false} KeyThenValue(key: Text, value: Text, v: Json, rest: Text)
    requires SkipSpace(value) == value && ParseValue(value) == Done(v, rest)
    ensures ParseMember(EmitString(key) + ([COLON] + value)) == Done(Member(key, v), rest)
  {
    var s := EmitString(key) + ([COLON] + value);
    assert s[1..] == EmitChars(key) + [QUOTE] + ([COLON] + value);
    ParseEmittedChars(key, [COLON] + value);
    assert ([COLON] + value)[1..] == value;
  }

  lemma {:induction false} ListText(items: seq<Json>, rest: Text)
    ensures Emit(Arr(items)) + rest == [OPEN_LIST] + (EmitItems(items) + ([CLOSE_LIST] + rest))
  {
  }

  lemma {:induction false} ObjectText(members: seq<Member>, rest: Text)
    ensures Emit(Obj(members)) + rest == [OPEN_OBJECT] + (EmitMembers(members) + ([CLOSE_OBJECT] + rest))
  {
  }

  /** Parsing what the printer emitted, followed by anything but a digit, returns the value. */
  lemma {:induction false} ParseEmit(v: Json, rest: Text)
    requires Distinct(v) && NoDigit(rest)
    ensures ParseValue(Emit(v) + rest) == Done(v, rest)
    decreases v, 1
  {
    match v
    case Int(i) => ParseEmittedInt(i, rest);
    case Null => ParseLiteral(rest);
    case Bool(b) => ParseLiteral(rest);
    case Str(text) => ParseText(text, rest);
    case Arr(items) =>
      if items == [] {
        ParseEmpty(rest);
        assert Emit(v) == [OPEN_LIST, CLOSE_LIST];
      } else {
        ListText(items, rest);
        ItemsStart(items, [CLOSE_LIST] + rest);
        ParseEmittedItems(items, rest);
        ParseList(EmitItems(items) + ([CLOSE_LIST] + rest), items, rest);
      }
    case Obj(members) =>
      if members == [] {
        ParseEmpty(rest);
        assert Emit(v) == [OPEN_OBJECT, CLOSE_OBJECT];
      } else {
        ObjectText(members, rest);
        ParseEmittedMembers(members, rest);
        ParseObject(EmitMembers(members) + ([CLOSE_OBJECT] + rest), members, rest);
      }
  }

  lemma {:induction false} Regroup(head: Text, tail: Text, end: Text)
    ensures head + [COMMA] + tail + end == head + ([COMMA] + (tail + end))
  {
  }

  lemma {:induction false} ItemsText(items: seq<Json>, end: Text)
    requires items != []
    ensures EmitItems(items) + end
         == Emit(items[0]) + if |items| == 1 then end else [COMMA] + (EmitItems(items[1..]) + end)
  {
    if |items| > 1 {
      Regroup(Emit(items[0]), EmitItems(items[1..]), end);
    }
  }

  lemma {:induction false} ItemsStart(items: seq<Json>, end: Text)
    requires items != []
    ensures var s := EmitItems(items) + end; SkipSpace(s) == s && !Starts(s, CLOSE_LIST)
  {
    EmitStarts(items[0]);
    ItemsText(items, end);
    NoSpaceToSkip(Emit(items[0]), if |items| == 1 then end else [COMMA] + (EmitItems(items[1..]) + end));
  }

  lemma {:induction false} ParseEmittedItems(items: seq<Json>, rest: Text)
    requires items != [] && forall i :: 0 <= i < |items| ==> Distinct(items[i])
    ensures ParseItems(EmitItems(items) + ([CLOSE_LIST] + rest)) == Done(items, rest)
    decreases items, 0
  {
    ItemsText(items, [CLOSE_LIST] + rest);
    var s := EmitItems(items) + ([CLOSE_LIST] + rest);
    if |items| == 1 {
      ParseEmit(items[0], [CLOSE_LIST] + rest);
      LastItem(s, items[0], rest);
      assert items == [items[0]];
    } else {
      var tail := EmitItems(items[1..]) + ([CLOSE_LIST] + rest);
      ParseEmit(items[0], [COMMA] + tail);
      ItemsStart(items[1..], [CLOSE_LIST] + rest);
      ParseEmittedItems(items[1..], rest);
      NextItem(s, items[0], tail, items[1..], rest);
      assert items == [items[0]] + items[1..];
    }
  }

  lemma {:induction false} ParseEmittedMember(member: Member, rest: Text)
    requires Distinct(member.value) && NoDigit(rest)
    ensures ParseMember(EmitMember(member) + rest) == Done(member, rest)
    decreases member, 0
  {
    var value := Emit(member.value) + rest;
    assert EmitMember(member) + rest == EmitString(member.key) + ([COLON] + value);
    EmitStarts(member.value);
    ParseEmit(member.value, rest);
    KeyThenValue(member.key, value, member.value, rest);
  }

  lemma {:induction false} MembersText(members: seq<Member>, end: Text)
    requires members != []
    ensures EmitMembers(members) + end
         == EmitMember(members[0])
            + if |members| == 1 then end else [COMMA] + (EmitMembers(members[1..]) + end)
  {
    if |members| > 1 {
      Regroup(EmitMember(members[0]), EmitMembers(members[1..]), end);
    }
  }

  lemma {:induction false} MembersStart(members: seq<Member>, end: Text)
    requires members != []
    ensures var s := EmitMembers(members) + end; SkipSpace(s) == s && !Starts(s, CLOSE_OBJECT)
  {
    MembersText(members, end);
    assert EmitMember(members[0])[0] == QUOTE;
    NoSpaceToSkip(EmitMember(members[0]),
                  if |members| == 1 then end else [COMMA] + (EmitMembers(members[1..]) + end));
  }

  lemma {:induction false} ParseEmittedMembers(members: seq<Member>, rest: Text)
    requires members != [] && forall i :: 0 <= i < |members| ==> Distinct(members[i].value)
    ensures var s := EmitMembers(members) + ([CLOSE_OBJECT] + rest);
            SkipSpace(s) == s && !Starts(s, CLOSE_OBJECT) && ParseMembers(s) == Done(members, rest)
    decreases members, 0
  {
    MembersText(members, [CLOSE_OBJECT] + rest);
    MembersStart(members, [CLOSE_OBJECT] + rest);
    var s := EmitMembers(members) + ([CLOSE_OBJECT] + rest);
    if |members| == 1 {
      ParseEmittedMember(members[0], [CLOSE_OBJECT] + rest);
      LastMember(s, members[0], rest);
      assert members == [members[0]];
    } else {
      var tail := EmitMembers(members[1..]) + ([CLOSE_OBJECT] + rest);
      ParseEmittedMember(members[0], [COMMA] + tail);
      ParseEmittedMembers(members[1..], rest);
      NextMember(s, members[0], tail, members[1..], rest);
      assert members == [members[0]] + members[1..];
    }
  }

  /** `json.loads(json.dumps(v))` gives the same tree back, members in the order printed. */
  lemma {:induction false} ParseOfEmit(v: Json)
    requires Distinct(v)
    ensures Parse(Emit(v)) == Some(v)
  {
    EmitStarts(v);
    ParseEmit(v, []);
    assert Emit(v) + [] == Emit(v);
  }

  /** The encoding is injective on dictionaries. */
  lemma {:induction false} EmitInjective(v: Json, w: Json)
    requires Distinct(v) && Distinct(w) && Emit(v) == Emit(w)
    ensures v == w
  {
    ParseOfEmit(v);
    ParseOfEmit(w);
  }
}
