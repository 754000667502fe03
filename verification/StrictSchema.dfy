/** The rewrite of an output schema into the strict subset a provider accepts. */
module StrictSchema {
  import opened Wrappers
  import opened Utf8
  import opened CanonicalJson
  import opened CanonicalOrder
  import opened Inspect
  import opened Manifest

  const DEFAULT := T("default")
  const PROPERTIES := T("properties")
  const ADDITIONAL := T("additionalProperties")
  const REQUIRED := T("required")

  // ---------------------------------------------------------------- the rewrite

  /** `members[key] = value`: in place when the key exists, at the end otherwise. */
  function SetKey(members: Fields, key: Text, value: Json): Fields {
    var i := Index(members, key);
    if i < |members| then members[i := Member(key, value)] else members + [Member(key, value)]
  }

  function KeyTexts(members: Fields): (keys: seq<Text>)
    ensures |keys| == |members| && forall i :: 0 <= i < |members| ==> keys[i] == members[i].key
  {
    seq(|members|, i requires 0 <= i < |members| => members[i].key)
  }

  function Strings(texts: seq<Text>): (items: seq<Json>)
    ensures |items| == |texts| && forall i :: 0 <= i < |texts| ==> items[i] == Str(texts[i])
  {
    seq(|texts|, i requires 0 <= i < |texts| => Str(texts[i]))
  }

  /** `sorted(properties)` */
  function SortedNames(properties: Fields): Json {
    Arr(Strings(SortPaths(KeyTexts(properties))))
  }

  /** A node with properties forbids all others and requires each of them. */
  function Close(members: Fields): Option<Fields> {
    match Get(members, PROPERTIES)
    case None => Some(members)
    case Some(Null) => Some(members)
    case Some(Obj(properties)) =>
      if Get(members, ADDITIONAL).Some? && Get(members, ADDITIONAL) != Some(Bool(false)) then None
      else Some(SetKey(SetKey(members, ADDITIONAL, Bool(false)), REQUIRED, SortedNames(properties)))
    case Some(_) => None
  }

  function Visit(v: Json): Option<Json>
    decreases v, 1
  {
    match v
    case Arr(items) =>
      (match VisitItems(items)
       case Some(visited) => Some(Arr(visited))
       case None => None)
    case Obj(members) =>
      (match VisitMembers(members)
       case Some(visited) => (match Close(visited) case Some(closed) => Some(Obj(closed)) case None => None)
       case None => None)
    case _ => Some(v)
  }

  function VisitItems(items: seq<Json>): Option<seq<Json>>
    decreases items, 0
  {
    if items == [] then Some([])
    else
      var first, others := Visit(items[0]), VisitItems(items[1..]);
      if first.Some? && others.Some? then Some([first.value] + others.value) else None
  }

  /** Every member is visited except one called `default`, which is dropped unvisited. */
  function VisitMembers(members: Fields): Option<Fields>
    decreases members, 0
  {
    if members == [] then Some([])
    else
      var others := VisitMembers(members[1..]);
      if members[0].key == DEFAULT then others
      else
        var first := Visit(members[0].value);
        if first.Some? && others.Some? then Some([Member(members[0].key, first.value)] + others.value) else None
  }

  /** The whole conversion: the schema is printed, read back strictly and then rewritten. */
  function StrictSchemaOf(schema: Json): Option<Json> {
    match CanonicalBytes(schema)
    case None => None
    case Some(raw) =>
      match Decode(raw)
      case None => None
      case Some(text) =>
        match Parse(text)
        case None => None
        case Some(normalized) => Visit(normalized)
  }

  // ---------------------------------------------------------------- what the rewrite promises

  predicate NoDefault(v: Json) {
    match v
    case Arr(items) => forall i :: 0 <= i < |items| ==> NoDefault(items[i])
    case Obj(members) =>
      forall i :: 0 <= i < |members| ==> members[i].key != DEFAULT && NoDefault(members[i].value)
    case _ => true
  }

  predicate ClosedNode(members: Fields) {
    match Get(members, PROPERTIES)
    case None => true
    case Some(Null) => true
    case Some(Obj(properties)) =>
      Get(members, ADDITIONAL) == Some(Bool(false)) && Get(members, REQUIRED) == Some(SortedNames(properties))
    case Some(_) => false
  }

  /** Every node with properties is closed and requires exactly its sorted property names. */
  predicate Closed(v: Json) {
    match v
    case Arr(items) => forall i :: 0 <= i < |items| ==> Closed(items[i])
    case Obj(members) =>
      ClosedNode(members) && forall i :: 0 <= i < |members| ==> Closed(members[i].value)
    case _ => true
  }

  predicate HasProperties(members: Fields) {
    Get(members, PROPERTIES).Some? && Get(members, PROPERTIES) != Some(Null)
  }

  predicate Rewritten(members: Fields, key: Text) {
    HasProperties(members) && (key == ADDITIONAL || key == REQUIRED)
  }

  /** Apart from dropped defaults and the two rewritten members, the tree is the same. */
  predicate Preserved(v: Json, w: Json)
    decreases w
  {
    match w
    case Arr(items) =>
      && v.Arr? && |v.items| == |items|
      && forall i :: 0 <= i < |items| ==> Preserved(v.items[i], items[i])
    case Obj(members) =>
      && v.Obj?
      && (forall i :: 0 <= i < |v.members| && v.members[i].key != DEFAULT ==>
            Get(members, v.members[i].key).Some?)
      && (forall i :: 0 <= i < |members| && !Rewritten(members, members[i].key) ==>
            Get(v.members, members[i].key).Some?
            && Preserved(Get(v.members, members[i].key).value, members[i].value))
    case _ => v == w
  }

  /** Exactly what makes the rewrite succeed: no node declares properties it cannot close. */
  predicate Convertible(v: Json) {
    match v
    case Arr(items) => forall i :: 0 <= i < |items| ==> Convertible(items[i])
    case Obj(members) =>
      && (forall i :: 0 <= i < |members| && members[i].key != DEFAULT ==> Convertible(members[i].value))
      && (HasProperties(members) ==>
            && Get(members, PROPERTIES).value.Obj?
            && (Get(members, ADDITIONAL).Some? ==> Get(members, ADDITIONAL) == Some(Bool(false))))
    case _ => true
  }

  // ---------------------------------------------------------------- names and members

  lemma {:induction false} NamesDiffer()
    ensures PROPERTIES != ADDITIONAL && PROPERTIES != REQUIRED && ADDITIONAL != REQUIRED
    ensures DEFAULT != ADDITIONAL && DEFAULT != REQUIRED && DEFAULT != PROPERTIES
  {
    assert PROPERTIES[0] == 112 && ADDITIONAL[0] == 97 && REQUIRED[0] == 114 && DEFAULT[0] == 100;
  }

  lemma {:induction false} GetCons(m: Member, rest: Fields, key: Text)
    ensures Get([m] + rest, key) == if m.key == key then Some(m.value) else Get(rest, key)
  {
    assert ([m] + rest)[1..] == rest;
  }

  lemma {:induction false} SetCons(m: Member, rest: Fields, key: Text, value: Json)
    ensures SetKey([m] + rest, key, value)
         == if m.key == key then [Member(key, value)] + rest else [m] + SetKey(rest, key, value)
  {
    assert ([m] + rest)[1..] == rest;
  }

  lemma {:induction false} GetAfterSet(members: Fields, key: Text, value: Json, other: Text)
    ensures Get(SetKey(members, key, value), other)
         == if other == key then Some(value) else Get(members, other)
  {
    if members == [] {
      assert SetKey(members, key, value) == [Member(key, value)] + [];
      GetCons(Member(key, value), [], other);
    } else {
      var m, rest := members[0], members[1..];
      assert members == [m] + rest;
      SetCons(m, rest, key, value);
      GetCons(m, rest, other);
      GetAfterSet(rest, key, value, other);
      GetCons(m, SetKey(rest, key, value), other);
      GetCons(Member(key, value), rest, other);
    }
  }

  lemma {:induction false} SetAgain(members: Fields, key: Text, value: Json)
    requires Get(members, key) == Some(value)
    ensures SetKey(members, key, value) == members
  {
  }

  /** A visited dictionary answers every key but `default` with the visited value. */
  lemma {:induction false} VisitedKey(members: Fields, visited: Fields, key: Text)
    requires VisitMembers(members) == Some(visited)
    ensures Get(visited, key)
         == if key == DEFAULT || Get(members, key).None? then None else Visit(Get(members, key).value)
  {
    if members != [] {
      var m, rest := members[0], members[1..];
      var others := VisitMembers(rest).value;
      assert members == [m] + rest;
      VisitedKey(rest, others, key);
      GetCons(m, rest, key);
      if m.key != DEFAULT {
        GetCons(Member(m.key, Visit(m.value).value), others, key);
      }
    }
  }

  predicate FromMember(members: Fields, visited: Member) {
    exists j :: 0 <= j < |members| && members[j].key == visited.key != DEFAULT
                && Visit(members[j].value) == Some(visited.value)
  }

  lemma {:induction false} FromRest(m: Member, rest: Fields, visited: Member)
    requires FromMember(rest, visited)
    ensures FromMember([m] + rest, visited)
  {
    var j :| 0 <= j < |rest| && rest[j].key == visited.key != DEFAULT && Visit(rest[j].value) == Some(visited.value);
    assert ([m] + rest)[j + 1] == rest[j];
  }

  lemma {:induction false} VisitedMembers(members: Fields, visited: Fields)
    requires VisitMembers(members) == Some(visited)
    ensures forall i :: 0 <= i < |visited| ==> FromMember(members, visited[i])
  {
    if members != [] {
      var m, rest := members[0], members[1..];
      var others := VisitMembers(rest).value;
      assert members == [m] + rest;
      VisitedMembers(rest, others);
      forall i | 0 <= i < |others| ensures FromMember(members, others[i]) {
        FromRest(m, rest, others[i]);
      }
      if m.key != DEFAULT {
        assert FromMember(members, Member(m.key, Visit(m.value).value)) by {
          assert members[0] == m;
        }
      }
    }
  }

  /** Visiting succeeds exactly when visiting each kept member does. */
  lemma {:induction false} VisitMembersIff(members: Fields)
    ensures VisitMembers(members).Some?
       <==> forall i :: 0 <= i < |members| && members[i].key != DEFAULT ==> Visit(members[i].value).Some?
  {
    if members != [] {
      VisitMembersIff(members[1..]);
      assert members == [members[0]] + members[1..];
    }
  }

  lemma {:induction false} VisitItemsIff(items: seq<Json>)
    ensures VisitItems(items).Some? <==> forall i :: 0 <= i < |items| ==> Visit(items[i]).Some?
    ensures VisitItems(items).Some? ==>
              && |VisitItems(items).value| == |items|
              && forall i :: 0 <= i < |items| ==> Visit(items[i]) == Some(VisitItems(items).value[i])
  {
    if items != [] {
      VisitItemsIff(items[1..]);
      assert items == [items[0]] + items[1..];
    }
  }

  /** Members that visiting leaves alone, none of them called `default`. */
  lemma {:induction false} FixedMembers(members: Fields)
    requires forall i :: 0 <= i < |members| ==>
               members[i].key != DEFAULT && Visit(members[i].value) == Some(members[i].value)
    ensures VisitMembers(members) == Some(members)
  {
    if members != [] {
      FixedMembers(members[1..]);
      assert members == [members[0]] + members[1..];
    }
  }

  lemma {:induction false} FixedItems(items: seq<Json>)
    requires forall i :: 0 <= i < |items| ==> Visit(items[i]) == Some(items[i])
    ensures VisitItems(items) == Some(items)
  {
    if items != [] {
      FixedItems(items[1..]);
      assert items == [items[0]] + items[1..];
    }
  }

  predicate AllFixed(members: Fields) {
    forall i :: 0 <= i < |members| ==>
      members[i].key != DEFAULT && Visit(members[i].value) == Some(members[i].value)
  }

  lemma {:induction false} SetKeepsFixed(members: Fields, key: Text, value: Json)
    requires AllFixed(members) && key != DEFAULT && Visit(value) == Some(value)
    ensures AllFixed(SetKey(members, key, value))
  {
  }

  // ---------------------------------------------------------------- closing a node

  /** What closing leaves of a node. */
  lemma {:induction false} CloseFacts(members: Fields, closed: Fields, key: Text)
    requires Close(members) == Some(closed)
    ensures Get(closed, key)
         == if !HasProperties(members) then Get(members, key)
            else if key == REQUIRED then Some(SortedNames(Get(members, PROPERTIES).value.members))
            else if key == ADDITIONAL then Some(Bool(false))
            else Get(members, key)
  {
    NamesDiffer();
    if HasProperties(members) {
      var properties := Get(members, PROPERTIES).value.members;
      var once := SetKey(members, ADDITIONAL, Bool(false));
      GetAfterSet(members, ADDITIONAL, Bool(false), key);
      GetAfterSet(once, REQUIRED, SortedNames(properties), key);
    }
  }

  lemma {:induction false} CloseAgain(members: Fields, closed: Fields)
    requires Close(members) == Some(closed)
    ensures Close(closed) == Some(closed)
    ensures HasProperties(closed) <==> HasProperties(members)
    ensures ClosedNode(closed)
  {
    NamesDiffer();
    CloseFacts(members, closed, PROPERTIES);
    CloseFacts(members, closed, ADDITIONAL);
    CloseFacts(members, closed, REQUIRED);
    if HasProperties(members) {
      var properties := Get(members, PROPERTIES).value.members;
      SetAgain(closed, ADDITIONAL, Bool(false));
      SetAgain(closed, REQUIRED, SortedNames(properties));
    }
  }

  lemma {:induction false} CloseKeepsFixed(members: Fields, closed: Fields)
    requires Close(members) == Some(closed) && AllFixed(members)
    ensures AllFixed(closed)
  {
    NamesDiffer();
    if HasProperties(members) {
      var properties := Get(members, PROPERTIES).value.members;
      SetKeepsFixed(members, ADDITIONAL, Bool(false));
      FixedItems(Strings(SortPaths(KeyTexts(properties))));
      SetKeepsFixed(SetKey(members, ADDITIONAL, Bool(false)), REQUIRED, SortedNames(properties));
    }
  }

  // ---------------------------------------------------------------- the theorems

  /** The rewrite succeeds exactly on convertible trees. */
  lemma {:induction false} VisitIffConvertible(v: Json)
    ensures Visit(v).Some? <==> Convertible(v)
  {
    match v
    case Arr(items) =>
      VisitItemsIff(items);
      forall i | 0 <= i < |items| ensures Visit(items[i]).Some? <==> Convertible(items[i]) {
        VisitIffConvertible(items[i]);
      }
    case Obj(members) =>
      VisitMembersIff(members);
      forall i | 0 <= i < |members| ensures Visit(members[i].value).Some? <==> Convertible(members[i].value) {
        VisitIffConvertible(members[i].value);
      }
      if VisitMembers(members).Some? {
        ClosableIff(members, VisitMembers(members).value);
      }
    case _ =>
  }

  lemma {:induction false} VisitedShape(v: Json)
    requires Visit(v).Some?
    ensures var w := Visit(v).value;
            && (w.Obj? <==> v.Obj?) && (w == Null <==> v == Null) && (forall b :: w == Bool(b) <==> v == Bool(b))
  {
  }

  lemma {:induction false} ClosableIff(members: Fields, visited: Fields)
    requires VisitMembers(members) == Some(visited)
    ensures HasProperties(visited) <==> HasProperties(members)
    ensures Close(visited).Some?
       <==> (HasProperties(members) ==>
               && Get(members, PROPERTIES).value.Obj?
               && (Get(members, ADDITIONAL).Some? ==> Get(members, ADDITIONAL) == Some(Bool(false))))
  {
    NamesDiffer();
    VisitedKey(members, visited, PROPERTIES);
    VisitedKey(members, visited, ADDITIONAL);
    if Get(members, PROPERTIES).Some? {
      KeptVisits(members, visited, PROPERTIES);
      VisitedShape(Get(members, PROPERTIES).value);
    }
    if Get(members, ADDITIONAL).Some? {
      KeptVisits(members, visited, ADDITIONAL);
      VisitedShape(Get(members, ADDITIONAL).value);
    }
  }

  lemma {:induction false} KeptVisits(members: Fields, visited: Fields, key: Text)
    requires VisitMembers(members) == Some(visited) && key != DEFAULT && Get(members, key).Some?
    ensures Visit(Get(members, key).value).Some?
  {
    VisitMembersIff(members);
  }

  /** A second rewrite changes nothing. */
  lemma {:induction false} VisitIdempotent(v: Json)
    requires Visit(v).Some?
    ensures Visit(Visit(v).value) == Visit(v)
  {
    match v
    case Arr(items) =>
      VisitItemsIff(items);
      var visited := VisitItems(items).value;
      forall i | 0 <= i < |items| ensures Visit(visited[i]) == Some(visited[i]) {
        VisitIdempotent(items[i]);
      }
      FixedItems(visited);
    case Obj(members) =>
      var visited := VisitMembers(members).value;
      VisitedMembers(members, visited);
      forall i | 0 <= i < |visited|
        ensures visited[i].key != DEFAULT && Visit(visited[i].value) == Some(visited[i].value)
      {
        assert FromMember(members, visited[i]);
        var j :| 0 <= j < |members| && members[j].key == visited[i].key != DEFAULT
                 && Visit(members[j].value) == Some(visited[i].value);
        VisitIdempotent(members[j].value);
      }
      var closed := Close(visited).value;
      CloseKeepsFixed(visited, closed);
      FixedMembers(closed);
      CloseAgain(visited, closed);
    case _ =>
  }

  /** What closing may have put into a node. */
  predicate FromClosing(visited: Fields, member: Member) {
    && HasProperties(visited)
    && (member == Member(ADDITIONAL, Bool(false))
        || (Get(visited, PROPERTIES).value.Obj?
            && member == Member(REQUIRED, SortedNames(Get(visited, PROPERTIES).value.members))))
  }

  lemma {:induction false} SetMembers(members: Fields, key: Text, value: Json)
    ensures forall i :: 0 <= i < |SetKey(members, key, value)| ==>
              || SetKey(members, key, value)[i] in members
              || SetKey(members, key, value)[i] == Member(key, value)
  {
  }

  lemma {:induction false} ClosedMembers(visited: Fields, closed: Fields)
    requires Close(visited) == Some(closed)
    ensures forall i :: 0 <= i < |closed| ==> closed[i] in visited || FromClosing(visited, closed[i])
  {
    if HasProperties(visited) {
      var once := SetKey(visited, ADDITIONAL, Bool(false));
      SetMembers(visited, ADDITIONAL, Bool(false));
      SetMembers(once, REQUIRED, SortedNames(Get(visited, PROPERTIES).value.members));
      forall i | 0 <= i < |closed| && closed[i] in once
        ensures closed[i] in visited || FromClosing(visited, closed[i])
      {
        var j :| 0 <= j < |once| && once[j] == closed[i];
      }
    }
  }

  predicate Clean(v: Json) {
    NoDefault(v) && Closed(v)
  }

  lemma {:induction false} ClosingIsClean(visited: Fields, member: Member)
    requires FromClosing(visited, member)
    ensures member.key != DEFAULT && Clean(member.value)
  {
    NamesDiffer();
  }

  /** The result has no `default` anywhere, and every node with properties is closed. */
  lemma {:induction false} VisitCleans(v: Json)
    requires Visit(v).Some?
    ensures Clean(Visit(v).value)
  {
    match v
    case Arr(items) =>
      VisitItemsIff(items);
      var visited := VisitItems(items).value;
      forall i | 0 <= i < |items| ensures Clean(visited[i]) {
        VisitCleans(items[i]);
      }
    case Obj(members) =>
      var visited := VisitMembers(members).value;
      var closed := Close(visited).value;
      VisitedMembers(members, visited);
      forall i | 0 <= i < |visited| ensures visited[i].key != DEFAULT && Clean(visited[i].value) {
        assert FromMember(members, visited[i]);
        var j :| 0 <= j < |members| && members[j].key == visited[i].key != DEFAULT
                 && Visit(members[j].value) == Some(visited[i].value);
        VisitCleans(members[j].value);
      }
      CloseAgain(visited, closed);
      ClosedMembers(visited, closed);
      forall i | 0 <= i < |closed| ensures closed[i].key != DEFAULT && Clean(closed[i].value) {
        if closed[i] in visited {
          var j :| 0 <= j < |visited| && visited[j] == closed[i];
        } else {
          ClosingIsClean(visited, closed[i]);
        }
      }
    case _ =>
  }

  lemma {:induction false} DistinctGet(members: Fields, j: nat)
    requires DistinctKeys(members) && j < |members|
    ensures Get(members, members[j].key) == Some(members[j].value)
  {
    DistinctIndex(members, j);
  }

  lemma {:induction false} KeptKeys(members: Fields, visited: Fields, closed: Fields, i: nat)
    requires VisitMembers(members) == Some(visited) && Close(visited) == Some(closed)
    requires i < |members| && members[i].key != DEFAULT
    ensures Get(closed, members[i].key).Some?
  {
    VisitedKey(members, visited, members[i].key);
    VisitMembersIff(members);
    CloseFacts(visited, closed, members[i].key);
  }

  /** Nothing else changes: the kept members, their order of keys aside, are the visited originals. */
  lemma {:induction false} VisitPreserves(v: Json)
    requires Distinct(v) && Visit(v).Some?
    ensures Preserved(v, Visit(v).value)
  {
    match v
    case Arr(items) =>
      VisitItemsIff(items);
      var visited := VisitItems(items).value;
      forall i | 0 <= i < |items| ensures Preserved(items[i], visited[i]) {
        VisitPreserves(items[i]);
      }
    case Obj(members) =>
      var visited := VisitMembers(members).value;
      var closed := Close(visited).value;
      forall i | 0 <= i < |members| && members[i].key != DEFAULT ensures Get(closed, members[i].key).Some? {
        KeptKeys(members, visited, closed, i);
      }
      VisitedMembers(members, visited);
      CloseAgain(visited, closed);
      ClosedMembers(visited, closed);
      forall i | 0 <= i < |closed| && !Rewritten(closed, closed[i].key)
        ensures Get(members, closed[i].key).Some?
                && Preserved(Get(members, closed[i].key).value, closed[i].value)
      {
        assert !FromClosing(visited, closed[i]);
        var k :| 0 <= k < |visited| && visited[k] == closed[i];
        assert FromMember(members, visited[k]);
        var j :| 0 <= j < |members| && members[j].key == visited[k].key != DEFAULT
                 && Visit(members[j].value) == Some(visited[k].value);
        DistinctGet(members, j);
        VisitPreserves(members[j].value);
      }
    case _ =>
  }

  lemma {:induction false} EqualField(a: Fields, b: Fields, key: Text)
    requires Equal(Obj(a), Obj(b))
    ensures Get(a, key).Some? <==> Get(b, key).Some?
    ensures Get(a, key).Some? ==> Equal(Get(a, key).value, Get(b, key).value)
  {
    if Index(b, key) < |b| {
      assert Index(a, b[Index(b, key)].key) < |a|;
    }
  }

  lemma {:induction false} EqualClosable(a: Fields, b: Fields)
    requires Equal(Obj(a), Obj(b))
    ensures HasProperties(a) <==> HasProperties(b)
    ensures HasProperties(a) ==>
              && (Get(a, PROPERTIES).value.Obj? <==> Get(b, PROPERTIES).value.Obj?)
              && (Get(a, ADDITIONAL).Some? <==> Get(b, ADDITIONAL).Some?)
              && (Get(a, ADDITIONAL) == Some(Bool(false)) <==> Get(b, ADDITIONAL) == Some(Bool(false)))
  {
    EqualField(a, b, PROPERTIES);
    EqualField(a, b, ADDITIONAL);
  }

  /** Whether a schema converts does not depend on the order of its members. */
  lemma {:induction false} ConvertibleEqual(v: Json, w: Json)
    requires Equal(v, w) && Distinct(v) && Distinct(w)
    ensures Convertible(v) <==> Convertible(w)
    decreases v
  {
    match v
    case Arr(items) =>
      forall i | 0 <= i < |items| ensures Convertible(items[i]) <==> Convertible(w.items[i]) {
        ConvertibleEqual(items[i], w.items[i]);
      }
    case Obj(members) =>
      var others := w.members;
      EqualClosable(members, others);
      forall i | 0 <= i < |members|
        ensures Convertible(members[i].value) <==> Convertible(others[Index(others, members[i].key)].value)
      {
        ConvertibleEqual(members[i].value, others[Index(others, members[i].key)].value);
      }
      forall j | 0 <= j < |others|
        ensures var i := Index(members, others[j].key);
                i < |members| && members[i].key == others[j].key && Index(others, members[i].key) == j
      {
        DistinctIndex(others, j);
      }
    case _ =>
  }

  lemma {:induction false} VisitHolds(v: Json)
    requires v.Obj? && Distinct(v)
    ensures Visit(v).Some? <==> Convertible(v)
    ensures Visit(v).Some? ==>
              var strict := Visit(v).value;
              && strict.Obj? && Visit(strict) == Some(strict) && NoDefault(strict) && Closed(strict)
              && Preserved(v, strict)
  {
    VisitIffConvertible(v);
    if Visit(v).Some? {
      VisitIdempotent(v);
      VisitCleans(v);
      VisitPreserves(v);
    }
  }

  /** Printing a schema and reading it back strictly gives its normal form, when it prints at all. */
  lemma {:induction false} ReadsNormal(schema: Json)
    requires schema.Obj? && Distinct(schema)
    ensures StrictSchemaOf(schema)
         == if CanonicalBytes(schema).Some? then Visit(Normal(CodePoints, schema)) else None
  {
    AnyKeySortable(schema);
    ParseOfPrint(CodePoints, schema);
    if CanonicalBytes(schema).Some? {
      DecodeIffEncode(CanonicalBytes(schema).value, Print(CodePoints, schema));
    }
  }

  /**
   On every schema it converts, the rewrite is idempotent, leaves no default, closes every node with
   properties and requires exactly their sorted names, and otherwise preserves the tree.
   */
  lemma {:induction false} StrictSchemaHolds(schema: Json)
    requires schema.Obj? && Distinct(schema)
    ensures StrictSchemaOf(schema).Some? <==> CanonicalBytes(schema).Some? && Convertible(schema)
    ensures StrictSchemaOf(schema).Some? ==>
              var strict := StrictSchemaOf(schema).value;
              && strict.Obj? && Visit(strict) == Some(strict) && NoDefault(strict) && Closed(strict)
              && Preserved(Normal(CodePoints, schema), strict)
  {
    AnyKeySortable(schema);
    NormalDistinct(CodePoints, schema);
    StrictReturnsEqual(schema);
    ConvertibleEqual(schema, Normal(CodePoints, schema));
    ReadsNormal(schema);
    VisitHolds(Normal(CodePoints, schema));
  }
}
