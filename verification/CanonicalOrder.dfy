/** What the canonical bytes say about a value: key order, dictionary equality, strict acceptance. */
module CanonicalOrder {
  import opened Wrappers
  import opened Utf8
  import opened CanonicalJson
  import opened JsonRoundTrip

  // ---------------------------------------------------------------- sorting

  predicate SortedBy(order: KeyOrder, members: seq<Member>) {
    forall i, j :: 0 <= i < j < |members| ==> KeyLess(order, members[i].key, members[j].key)
  }

  /** `key.encode("utf-16be")` refuses lone surrogates; the code-point order takes any key. */
  predicate Sortable(order: KeyOrder, key: Text) {
    order.CodePoints? || Scalars(key)
  }

  predicate SortableKeys(order: KeyOrder, members: seq<Member>) {
    forall i :: 0 <= i < |members| ==> Sortable(order, members[i].key)
  }

  predicate AllSortable(order: KeyOrder, v: Json) {
    match v
    case Arr(items) => forall i :: 0 <= i < |items| ==> AllSortable(order, items[i])
    case Obj(members) =>
      && SortableKeys(order, members)
      && forall i :: 0 <= i < |members| ==> AllSortable(order, members[i].value)
    case _ => true
  }

  lemma {:induction false} KeyLessTotal(order: KeyOrder, a: Text, b: Text)
    requires Sortable(order, a) && Sortable(order, b)
    ensures KeyLess(order, a, b) || a == b || KeyLess(order, b, a)
    ensures !(KeyLess(order, a, b) && KeyLess(order, b, a)) && !KeyLess(order, a, a)
  {
    LessTotal(a, b);
    LessTotal(a, a);
    LessTotal(Utf16(a), Utf16(b));
    LessTotal(Utf16(a), Utf16(a));
    if order.Utf16Units? && a != b {
      KeyOrders(a, b);
      KeyOrders(b, a);
      OrdersDifferSymmetric(a, b);
    }
  }

  lemma {:induction false} OrdersDifferSymmetric(a: Text, b: Text)
    ensures OrdersDiffer(a, b) == OrdersDiffer(b, a)
  {
    if a != [] && b != [] {
      OrdersDifferSymmetric(a[1..], b[1..]);
    }
  }

  lemma {:induction false} KeyLessTransitive(order: KeyOrder, a: Text, b: Text, c: Text)
    requires KeyLess(order, a, b) && KeyLess(order, b, c)
    ensures KeyLess(order, a, c)
  {
    if order.CodePoints? {
      LessTransitive(a, b, c);
    } else {
      LessTransitive(Utf16(a), Utf16(b), Utf16(c));
    }
  }

  predicate SameElements(a: seq<Member>, b: seq<Member>) {
    (forall i :: 0 <= i < |a| ==> a[i] in b) && (forall i :: 0 <= i < |b| ==> b[i] in a)
  }

  lemma {:induction false} InsertContents(order: KeyOrder, member: Member, members: seq<Member>)
    ensures forall m :: m in Insert(order, member, members) <==> m == member || m in members
  {
    if members != [] {
      InsertContents(order, member, members[1..]);
      assert members == [members[0]] + members[1..];
    }
  }

  /** Prepending a smaller key to a sorted list keeps it sorted. */
  lemma {:induction false} SortedCons(order: KeyOrder, member: Member, members: seq<Member>)
    requires SortedBy(order, members)
    requires forall i :: 0 <= i < |members| ==> KeyLess(order, member.key, members[i].key)
    ensures SortedBy(order, [member] + members)
  {
  }

  lemma {:induction false} InsertSorted(order: KeyOrder, member: Member, members: seq<Member>)
    requires SortedBy(order, members) && SortableKeys(order, members) && Sortable(order, member.key)
    requires forall i :: 0 <= i < |members| ==> members[i].key != member.key
    ensures SortedBy(order, Insert(order, member, members))
  {
    if members != [] {
      var head, tail := members[0], members[1..];
      KeyLessTotal(order, member.key, head.key);
      if KeyLess(order, member.key, head.key) {
        forall i | 0 < i < |members| ensures KeyLess(order, member.key, members[i].key) {
          KeyLessTransitive(order, member.key, head.key, members[i].key);
        }
        SortedCons(order, member, members);
      } else {
        InsertSorted(order, member, tail);
        InsertContents(order, member, tail);
        var rest := Insert(order, member, tail);
        forall i | 0 <= i < |rest| ensures KeyLess(order, head.key, rest[i].key) {
          assert rest[i] in rest;
        }
        SortedCons(order, head, rest);
      }
    }
  }

  lemma {:induction false} SortContents(order: KeyOrder, members: seq<Member>)
    ensures forall m :: m in Sort(order, members) <==> m in members
  {
    if members != [] {
      SortContents(order, members[1..]);
      InsertContents(order, members[0], Sort(order, members[1..]));
      assert members == [members[0]] + members[1..];
    }
  }

  lemma {:induction false} SortSorted(order: KeyOrder, members: seq<Member>)
    requires DistinctKeys(members) && SortableKeys(order, members)
    ensures SortedBy(order, Sort(order, members))
  {
    if members != [] {
      var head, tail := members[0], members[1..];
      var sorted := Sort(order, tail);
      SortSorted(order, tail);
      SortContents(order, tail);
      forall i | 0 <= i < |sorted| ensures Sortable(order, sorted[i].key) && sorted[i].key != head.key {
        assert sorted[i] in sorted;
      }
      InsertSorted(order, head, sorted);
    }
  }

  lemma {:induction false} SortedDistinct(order: KeyOrder, members: seq<Member>)
    requires SortedBy(order, members) && SortableKeys(order, members)
    ensures DistinctKeys(members)
  {
    forall i, j | 0 <= i < j < |members| ensures members[i].key != members[j].key {
      KeyLessTotal(order, members[i].key, members[j].key);
    }
  }

  lemma {:induction false} SortedHead(order: KeyOrder, a: seq<Member>, b: seq<Member>)
    requires SortedBy(order, a) && SortedBy(order, b) && SameElements(a, b) && a != [] && b != []
    requires SortableKeys(order, a) && SortableKeys(order, b)
    ensures a[0] == b[0]
  {
    var i :| 0 <= i < |a| && a[i] == b[0];
    var j :| 0 <= j < |b| && b[j] == a[0];
    if i > 0 && j > 0 {
      KeyLessTotal(order, a[0].key, b[0].key);
    }
  }

  lemma {:induction false} SameElementsEmpty(a: seq<Member>, b: seq<Member>)
    requires SameElements(a, b)
    ensures a == [] <==> b == []
  {
    if a != [] {
      assert a[0] in b;
    }
    if b != [] {
      assert b[0] in a;
    }
  }

  /** A sorted list is determined by its elements. */
  lemma {:induction false} SortedUnique(order: KeyOrder, a: seq<Member>, b: seq<Member>)
    requires SortedBy(order, a) && SortedBy(order, b) && SameElements(a, b)
    requires SortableKeys(order, a) && SortableKeys(order, b)
    ensures a == b
  {
    SameElementsEmpty(a, b);
    if a != [] {
      SortedHead(order, a, b);
      SortedTails(order, a, b);
      SortedUnique(order, a[1..], b[1..]);
      assert a == [a[0]] + a[1..] && b == [b[0]] + b[1..];
    }
  }

  lemma {:induction false} SortedTails(order: KeyOrder, a: seq<Member>, b: seq<Member>)
    requires SortedBy(order, a) && SortedBy(order, b) && SameElements(a, b)
    requires SortableKeys(order, a) && SortableKeys(order, b)
    requires a != [] && b != [] && a[0] == b[0]
    ensures SameElements(a[1..], b[1..])
  {
    TailWithin(order, a, b);
    TailWithin(order, b, a);
  }

  lemma {:induction false} TailWithin(order: KeyOrder, a: seq<Member>, b: seq<Member>)
    requires SortedBy(order, a) && SameElements(a, b) && SortableKeys(order, a)
    requires a != [] && b != [] && a[0] == b[0]
    ensures forall i :: 0 <= i < |a[1..]| ==> a[1..][i] in b[1..]
  {
    SortedDistinct(order, a);
    forall i | 0 < i < |a| ensures a[i] in b[1..] {
      assert a[i] in b && a[i] != a[0];
      var j :| 0 <= j < |b| && b[j] == a[i];
      assert b[1..][j - 1] == a[i];
    }
  }

  // ---------------------------------------------------------------- dictionary equality

  /** Where a key is stored; the length when it is absent. */
  function Index(members: seq<Member>, key: Text): (i: nat)
    ensures i <= |members|
    ensures i < |members| ==> members[i].key == key
    ensures forall k :: 0 <= k < i ==> members[k].key != key
  {
    if members == [] || members[0].key == key then 0 else 1 + Index(members[1..], key)
  }

  predicate KeysWithin(ns: seq<Member>, ms: seq<Member>) {
    forall j :: 0 <= j < |ns| ==> Index(ms, ns[j].key) < |ms|
  }

  /** `==` on decoded JSON: lists by position, dictionaries by key. */
  predicate Equal(v: Json, w: Json) {
    match v
    case Arr(items) =>
      && w.Arr? && |w.items| == |items|
      && forall i :: 0 <= i < |items| ==> Equal(items[i], w.items[i])
    case Obj(members) =>
      && w.Obj?
      && KeysWithin(w.members, members)
      && (forall i :: 0 <= i < |members| ==>
            var j := Index(w.members, members[i].key);
            j < |w.members| && Equal(members[i].value, w.members[j].value))
    case _ => v == w
  }

  lemma {:induction false} NormalObject(order: KeyOrder, members: seq<Member>)
    requires DistinctKeys(members) && SortableKeys(order, members)
    ensures var n := NormalMembers(order, members);
            && SortedBy(order, Sort(order, n)) && SortableKeys(order, Sort(order, n))
            && SameElements(Sort(order, n), n)
  {
    var n := NormalMembers(order, members);
    SortSorted(order, n);
    SortContents(order, n);
    var s := Sort(order, n);
    forall i | 0 <= i < |s| ensures s[i] in n && Sortable(order, s[i].key) {
      assert s[i] in s;
    }
  }

  lemma {:induction false} NormalDistinct(order: KeyOrder, v: Json)
    requires Distinct(v) && AllSortable(order, v)
    ensures Distinct(Normal(order, v))
  {
    match v
    case Arr(items) =>
      forall i | 0 <= i < |items| ensures Distinct(NormalItems(order, items)[i]) {
        NormalDistinct(order, items[i]);
      }
    case Obj(members) =>
      var n := NormalMembers(order, members);
      NormalObject(order, members);
      SortedDistinct(order, Sort(order, n));
      forall i | 0 <= i < |members| ensures Distinct(n[i].value) {
        NormalDistinct(order, members[i].value);
      }
    case _ =>
  }

  /** Normalising twice changes nothing. */
  lemma {:induction false} NormalIdempotent(order: KeyOrder, v: Json)
    requires Distinct(v) && AllSortable(order, v)
    ensures Normal(order, Normal(order, v)) == Normal(order, v)
  {
    match v
    case Arr(items) =>
      var n := NormalItems(order, items);
      forall i | 0 <= i < |items| ensures Normal(order, n[i]) == n[i] {
        NormalIdempotent(order, items[i]);
      }
      assert NormalItems(order, n) == n;
    case Obj(members) =>
      var n := NormalMembers(order, members);
      NormalObject(order, members);
      forall i | 0 <= i < |members| ensures Normal(order, n[i].value) == n[i].value {
        NormalIdempotent(order, members[i].value);
      }
      SortAgain(order, Sort(order, n));
    case _ =>
  }

  lemma {:induction false} SortAgain(order: KeyOrder, s: seq<Member>)
    requires SortedBy(order, s) && SortableKeys(order, s)
    requires forall i :: 0 <= i < |s| ==> Normal(order, s[i].value) == s[i].value
    ensures Normal(order, Obj(s)) == Obj(s)
  {
    assert NormalMembers(order, s) == s;
    SortedDistinct(order, s);
    NormalObject(order, s);
    SortedUnique(order, Sort(order, s), s);
  }

  lemma {:induction false} DistinctIndex(members: seq<Member>, i: nat)
    requires DistinctKeys(members) && i < |members|
    ensures Index(members, members[i].key) == i
  {
  }

  /** Dictionaries with pairwise equal normal values under equal keys have the same normal members. */
  lemma {:induction false} MatchedMembers(order: KeyOrder, ms: seq<Member>, ns: seq<Member>)
    requires DistinctKeys(ms) && DistinctKeys(ns)
    requires KeysWithin(ns, ms)
    requires forall i :: 0 <= i < |ms| ==>
               var j := Index(ns, ms[i].key);
               j < |ns| && Normal(order, ms[i].value) == Normal(order, ns[j].value)
    ensures SameElements(NormalMembers(order, ms), NormalMembers(order, ns))
  {
    var a, b := NormalMembers(order, ms), NormalMembers(order, ns);
    forall i | 0 <= i < |a| ensures a[i] in b {
      assert a[i] == b[Index(ns, ms[i].key)];
    }
    forall j | 0 <= j < |b| ensures b[j] in a {
      var i := Index(ms, ns[j].key);
      DistinctIndex(ns, j);
      assert b[j] == a[i];
    }
  }

  lemma {:induction false} SameSorted(order: KeyOrder, ms: seq<Member>, ns: seq<Member>)
    requires DistinctKeys(ms) && DistinctKeys(ns) && SortableKeys(order, ms) && SortableKeys(order, ns)
    ensures SameElements(NormalMembers(order, ms), NormalMembers(order, ns))
       <==> Sort(order, NormalMembers(order, ms)) == Sort(order, NormalMembers(order, ns))
  {
    var a, b := NormalMembers(order, ms), NormalMembers(order, ns);
    NormalObject(order, ms);
    NormalObject(order, ns);
    var s, t := Sort(order, a), Sort(order, b);
    if SameElements(a, b) {
      SameElementsTransitive(s, a, b);
      SameElementsTransitive(s, b, t);
      SortedUnique(order, s, t);
    }
    if s == t {
      SameElementsTransitive(a, s, b);
    }
  }

  lemma {:induction false} SameElementsTransitive(a: seq<Member>, b: seq<Member>, c: seq<Member>)
    requires SameElements(a, b) && SameElements(b, c)
    ensures SameElements(a, c)
  {
    forall i | 0 <= i < |a| ensures a[i] in c {
      var j :| 0 <= j < |b| && b[j] == a[i];
    }
    forall i | 0 <= i < |c| ensures c[i] in a {
      var j :| 0 <= j < |b| && b[j] == c[i];
    }
  }

  /** Equal values have one normal form, and values with one normal form are equal. */
  lemma {:induction false} EqualIffNormal(order: KeyOrder, v: Json, w: Json)
    requires Distinct(v) && Distinct(w) && AllSortable(order, v) && AllSortable(order, w)
    ensures Equal(v, w) <==> Normal(order, v) == Normal(order, w)
    decreases v
  {
    if v.Arr? && w.Arr? && |v.items| == |w.items| {
      var a, b := NormalItems(order, v.items), NormalItems(order, w.items);
      forall i | 0 <= i < |v.items|
        ensures Equal(v.items[i], w.items[i]) <==> a[i] == b[i]
      {
        EqualIffNormal(order, v.items[i], w.items[i]);
      }
    } else if v.Obj? && w.Obj? {
      SameSorted(order, v.members, w.members);
      forall i, j | 0 <= i < |v.members| && 0 <= j < |w.members|
        ensures Equal(v.members[i].value, w.members[j].value)
           <==> Normal(order, v.members[i].value) == Normal(order, w.members[j].value)
      {
        EqualIffNormal(order, v.members[i].value, w.members[j].value);
      }
      if Equal(v, w) {
        MatchedMembers(order, v.members, w.members);
      }
      if Normal(order, v) == Normal(order, w) {
        EqualMembers(order, v.members, w.members);
      }
    }
  }

  lemma {:induction false} SameElementsSameKeys(ms: seq<Member>, ns: seq<Member>, a: seq<Member>, b: seq<Member>)
    requires DistinctKeys(ms) && |a| == |ms| && |b| == |ns| && SameElements(a, b)
    requires forall i :: 0 <= i < |a| ==> a[i].key == ms[i].key
    requires forall j :: 0 <= j < |b| ==> b[j].key == ns[j].key
    ensures KeysWithin(ns, ms)
  {
    forall j | 0 <= j < |ns| ensures Index(ms, ns[j].key) < |ms| {
      var i :| 0 <= i < |a| && a[i] == b[j];
      DistinctIndex(ms, i);
    }
  }

  lemma {:induction false} EqualMembers(order: KeyOrder, ms: seq<Member>, ns: seq<Member>)
    requires DistinctKeys(ms) && DistinctKeys(ns)
    requires forall i, j :: 0 <= i < |ms| && 0 <= j < |ns| ==>
               (Equal(ms[i].value, ns[j].value)
                <==> Normal(order, ms[i].value) == Normal(order, ns[j].value))
    requires SameElements(NormalMembers(order, ms), NormalMembers(order, ns))
    ensures Equal(Obj(ms), Obj(ns))
  {
    var a, b := NormalMembers(order, ms), NormalMembers(order, ns);
    SameElementsSameKeys(ms, ns, a, b);
    forall i | 0 <= i < |ms|
      ensures var j := Index(ns, ms[i].key); j < |ns| && Equal(ms[i].value, ns[j].value)
    {
      var j :| 0 <= j < |b| && b[j] == a[i];
      DistinctIndex(ns, j);
    }
  }

  /** Two dictionaries print the same text exactly when they are equal; insertion order is irrelevant. */
  lemma {:induction false} PrintIdentifies(order: KeyOrder, v: Json, w: Json)
    requires Distinct(v) && Distinct(w) && AllSortable(order, v) && AllSortable(order, w)
    ensures Print(order, v) == Print(order, w) <==> Equal(v, w)
  {
    EqualIffNormal(order, v, w);
    NormalDistinct(order, v);
    NormalDistinct(order, w);
    if Print(order, v) == Print(order, w) {
      EmitInjective(Normal(order, v), Normal(order, w));
    }
  }

  /** Parsing the printed text returns an equal value. */
  lemma {:induction false} ParseOfPrint(order: KeyOrder, v: Json)
    requires Distinct(v) && AllSortable(order, v)
    ensures Parse(Print(order, v)) == Some(Normal(order, v))
    ensures Normal(order, Normal(order, v)) == Normal(order, v)
  {
    NormalDistinct(order, v);
    NormalIdempotent(order, v);
    ParseOfEmit(Normal(order, v));
  }

  lemma {:induction false} AnyKeySortable(v: Json)
    ensures AllSortable(CodePoints, v)
  {
    match v
    case Arr(items) =>
      forall i | 0 <= i < |items| ensures AllSortable(CodePoints, items[i]) {
        AnyKeySortable(items[i]);
      }
    case Obj(members) =>
      forall i | 0 <= i < |members| ensures AllSortable(CodePoints, members[i].value) {
        AnyKeySortable(members[i].value);
      }
    case _ =>
  }

  // ---------------------------------------------------------------- strict acceptance

  /** The broker protocol's encoder: sorted by code point, UTF-8. */
  function CanonicalBytes(v: Json): Option<Bytes> {
    Encode(Print(CodePoints, v))
  }

  /** `_strict_json`: bounded, well-formed, duplicate-free, an object, and re-encoding to itself. */
  function StrictJson(raw: Bytes, maximum: nat): Option<Json> {
    if raw == [] || |raw| > maximum then None
    else
      var text := Decode(raw);
      if text.None? then None
      else
        var v := Parse(text.value);
        if v.None? || !v.value.Obj? || CanonicalBytes(v.value) != Some(raw) then None else v
  }

  lemma {:induction false} StrictReadsBack(raw: Bytes, maximum: nat, v: Json)
    requires 0 < |raw| <= maximum && v.Obj? && Distinct(v) && CanonicalBytes(v) == Some(raw)
    ensures StrictJson(raw, maximum) == Some(Normal(CodePoints, v))
  {
    AnyKeySortable(v);
    ParseOfPrint(CodePoints, v);
    DecodeIffEncode(raw, Print(CodePoints, v));
  }

  /** `_strict_json` accepts exactly the canonical bytes of dictionaries, and returns that dictionary. */
  lemma {:induction false} StrictAcceptsPrinted(raw: Bytes, maximum: nat)
    ensures StrictJson(raw, maximum).Some?
       <==> 0 < |raw| <= maximum && exists v: Json :: v.Obj? && Distinct(v) && CanonicalBytes(v) == Some(raw)
    ensures forall v: Json :: v.Obj? && Distinct(v) && CanonicalBytes(v) == Some(raw) && 0 < |raw| <= maximum ==>
              StrictJson(raw, maximum).Some? && Equal(v, StrictJson(raw, maximum).value)
  {
    forall v: Json | v.Obj? && Distinct(v) && CanonicalBytes(v) == Some(raw) && 0 < |raw| <= maximum
      ensures StrictJson(raw, maximum).Some? && Equal(v, StrictJson(raw, maximum).value)
    {
      StrictReadsBack(raw, maximum, v);
      StrictReturnsEqual(v);
    }
    if StrictJson(raw, maximum).Some? {
      assert Distinct(StrictJson(raw, maximum).value);
    }
  }

  lemma {:induction false} StrictReturnsEqual(v: Json)
    requires Distinct(v)
    ensures Equal(v, Normal(CodePoints, v))
  {
    AnyKeySortable(v);
    AnyKeySortable(Normal(CodePoints, v));
    NormalDistinct(CodePoints, v);
    NormalIdempotent(CodePoints, v);
    EqualIffNormal(CodePoints, v, Normal(CodePoints, v));
  }

  // ---------------------------------------------------------------- the two encoders

  const CANONICAL_INTEGER_LIMIT := 9_007_199_254_740_991

  predicate IntegersInRange(v: Json) {
    match v
    case Int(i) => -CANONICAL_INTEGER_LIMIT <= i <= CANONICAL_INTEGER_LIMIT
    case Arr(items) => forall i :: 0 <= i < |items| ==> IntegersInRange(items[i])
    case Obj(members) => forall i :: 0 <= i < |members| ==> IntegersInRange(members[i].value)
    case _ => true
  }

  /** The attestation encoder: interoperable integers only, keys sorted by UTF-16 code unit. */
  function AttestationBytes(v: Json): Option<Bytes> {
    if IntegersInRange(v) && AllSortable(Utf16Units, v) then Encode(Print(Utf16Units, v)) else None
  }

  predicate KeysNotInverted(members: seq<Member>) {
    forall i, j :: 0 <= i < |members| && 0 <= j < |members| && i != j ==>
      !OrdersDiffer(members[i].key, members[j].key)
  }

  /** No two keys of one object first differ in a pair that the two orders rank differently. */
  predicate NoInvertedKeys(v: Json) {
    match v
    case Arr(items) => forall i :: 0 <= i < |items| ==> NoInvertedKeys(items[i])
    case Obj(members) =>
      && KeysNotInverted(members)
      && forall i :: 0 <= i < |members| ==> NoInvertedKeys(members[i].value)
    case _ => true
  }

  lemma {:induction false} OrdersAgreeOnKeys(a: Text, b: Text)
    requires Scalars(a) && Scalars(b) && a != b
    ensures OrdersDiffer(a, b) <==> KeyLess(Utf16Units, a, b) != KeyLess(CodePoints, a, b)
  {
    KeyOrders(a, b);
    LessTotal(a, b);
  }

  lemma {:induction false} SortedContents(order: KeyOrder, members: seq<Member>)
    requires DistinctKeys(members) && SortableKeys(Utf16Units, members)
    ensures SortedBy(order, Sort(order, members)) && SortableKeys(Utf16Units, Sort(order, members))
    ensures SameElements(Sort(order, members), members)
  {
    var s := Sort(order, members);
    SortSorted(order, members);
    SortContents(order, members);
    forall k | 0 <= k < |s| ensures s[k] in members && Scalars(s[k].key) { assert s[k] in s; }
  }

  lemma {:induction false} SortedBothWays(s: seq<Member>, k: nat, l: nat)
    requires SortedBy(Utf16Units, s) && SortedBy(CodePoints, s) && SortableKeys(Utf16Units, s)
    requires k < |s| && l < |s| && k != l
    ensures !OrdersDiffer(s[k].key, s[l].key)
  {
    SortedDistinct(CodePoints, s);
    OrdersDifferSymmetric(s[k].key, s[l].key);
    if k < l {
      OrdersAgreeOnKeys(s[k].key, s[l].key);
    } else {
      OrdersAgreeOnKeys(s[l].key, s[k].key);
    }
  }

  lemma {:induction false} AgreeingSorts(members: seq<Member>)
    requires DistinctKeys(members) && SortableKeys(Utf16Units, members)
    requires Sort(Utf16Units, members) == Sort(CodePoints, members)
    ensures KeysNotInverted(members)
  {
    var s := Sort(Utf16Units, members);
    SortedContents(Utf16Units, members);
    SortedContents(CodePoints, members);
    forall i, j | 0 <= i < |members| && 0 <= j < |members| && i != j
      ensures !OrdersDiffer(members[i].key, members[j].key)
    {
      assert members[i] in s && members[j] in s;
      var k :| 0 <= k < |s| && s[k] == members[i];
      var l :| 0 <= l < |s| && s[l] == members[j];
      SortedBothWays(s, k, l);
    }
  }

  /** Over the same members the two sorts agree exactly when no key pair is ranked differently. */
  lemma {:induction false} SortsAgree(members: seq<Member>)
    requires DistinctKeys(members) && SortableKeys(Utf16Units, members)
    ensures Sort(Utf16Units, members) == Sort(CodePoints, members) <==> KeysNotInverted(members)
  {
    var s, t := Sort(Utf16Units, members), Sort(CodePoints, members);
    if s == t {
      AgreeingSorts(members);
    }
    if KeysNotInverted(members) {
      SortedContents(Utf16Units, members);
      SortedContents(CodePoints, members);
      SortedUnderBoth(s, members);
      SameElementsTransitive(s, members, t);
      SortedUnique(CodePoints, s, t);
    }
  }

  lemma {:induction false} SortedUnderBoth(s: seq<Member>, members: seq<Member>)
    requires SortedBy(Utf16Units, s) && SortableKeys(Utf16Units, s)
    requires SameElements(s, members) && KeysNotInverted(members)
    ensures SortedBy(CodePoints, s)
  {
    SortedDistinct(Utf16Units, s);
    forall k, l | 0 <= k < l < |s| ensures KeyLess(CodePoints, s[k].key, s[l].key) {
      var i :| 0 <= i < |members| && members[i] == s[k];
      var j :| 0 <= j < |members| && members[j] == s[l];
      OrdersAgreeOnKeys(s[k].key, s[l].key);
    }
  }

  lemma {:induction false} SortedElements(order: KeyOrder, a: seq<Member>, b: seq<Member>)
    requires SortableKeys(order, a) && SortableKeys(order, b) && DistinctKeys(a) && DistinctKeys(b)
    requires |a| == |b| && forall i :: 0 <= i < |a| ==> a[i].key == b[i].key
    requires Sort(Utf16Units, a) == Sort(CodePoints, b)
    ensures a == b
  {
    SortContents(Utf16Units, a);
    SortContents(CodePoints, b);
    forall i | 0 <= i < |a| ensures a[i] == b[i] {
      assert a[i] in Sort(Utf16Units, a);
      assert a[i] in b;
      var j :| 0 <= j < |b| && b[j] == a[i];
    }
  }

  /** The attestation and broker encoders produce the same text exactly when no key pair is inverted. */
  lemma {:induction false} EncodersAgree(v: Json)
    requires Distinct(v) && AllSortable(Utf16Units, v)
    ensures Normal(Utf16Units, v) == Normal(CodePoints, v) <==> NoInvertedKeys(v)
  {
    match v
    case Arr(items) =>
      var a, b := NormalItems(Utf16Units, items), NormalItems(CodePoints, items);
      forall i | 0 <= i < |items| ensures a[i] == b[i] <==> NoInvertedKeys(items[i]) {
        EncodersAgree(items[i]);
      }
      if NoInvertedKeys(v) {
        assert a == b;
      }
    case Obj(members) =>
      var a, b := NormalMembers(Utf16Units, members), NormalMembers(CodePoints, members);
      forall i | 0 <= i < |members| ensures a[i] == b[i] <==> NoInvertedKeys(members[i].value) {
        EncodersAgree(members[i].value);
      }
      EncodersAgreeOnObject(members);
    case _ =>
  }

  lemma {:induction false} SameKeysNotInverted(a: seq<Member>, b: seq<Member>)
    requires |a| == |b| && forall i :: 0 <= i < |a| ==> a[i].key == b[i].key
    requires KeysNotInverted(a)
    ensures KeysNotInverted(b)
  {
  }

  /** Sorting `a` by UTF-16 and `b` by code point, same keys, agree when `a` is `b` and not inverted. */
  lemma {:induction false} SortedAlike(members: seq<Member>, a: seq<Member>, b: seq<Member>)
    requires DistinctKeys(members) && SortableKeys(Utf16Units, members)
    requires |a| == |b| == |members|
    requires forall i :: 0 <= i < |a| ==> a[i].key == b[i].key == members[i].key
    ensures Sort(Utf16Units, a) == Sort(CodePoints, b) <==> a == b && KeysNotInverted(members)
  {
    SortsAgree(a);
    if Sort(Utf16Units, a) == Sort(CodePoints, b) {
      SortedElements(Utf16Units, a, b);
      SameKeysNotInverted(a, members);
    }
    if KeysNotInverted(members) {
      SameKeysNotInverted(members, a);
    }
  }

  lemma {:induction false} EncodersAgreeOnObject(members: seq<Member>)
    requires DistinctKeys(members) && SortableKeys(Utf16Units, members)
    requires forall i :: 0 <= i < |members| ==>
               (NormalMembers(Utf16Units, members)[i] == NormalMembers(CodePoints, members)[i]
                <==> NoInvertedKeys(members[i].value))
    ensures Normal(Utf16Units, Obj(members)) == Normal(CodePoints, Obj(members))
       <==> NoInvertedKeys(Obj(members))
  {
    var a, b := NormalMembers(Utf16Units, members), NormalMembers(CodePoints, members);
    SortedAlike(members, a, b);
  }

  lemma {:induction false} EncodersPrintAlike(v: Json)
    requires Distinct(v) && AllSortable(Utf16Units, v)
    ensures Print(Utf16Units, v) == Print(CodePoints, v) <==> NoInvertedKeys(v)
    ensures IntegersInRange(v) && NoInvertedKeys(v) ==> AttestationBytes(v) == CanonicalBytes(v)
    ensures AttestationBytes(v).Some? && CanonicalBytes(v).Some? ==>
              (AttestationBytes(v) == CanonicalBytes(v) <==> NoInvertedKeys(v))
  {
    if AttestationBytes(v).Some? && AttestationBytes(v) == CanonicalBytes(v) {
      DecodeIffEncode(AttestationBytes(v).value, Print(Utf16Units, v));
      DecodeIffEncode(AttestationBytes(v).value, Print(CodePoints, v));
    }
    EncodersAgree(v);
    AnyKeySortable(v);
    NormalDistinct(Utf16Units, v);
    NormalDistinct(CodePoints, v);
    if Print(Utf16Units, v) == Print(CodePoints, v) {
      EmitInjective(Normal(Utf16Units, v), Normal(CodePoints, v));
    }
  }

  predicate BasicPlaneKeys(v: Json) {
    match v
    case Arr(items) => forall i :: 0 <= i < |items| ==> BasicPlaneKeys(items[i])
    case Obj(members) =>
      && (forall i :: 0 <= i < |members| ==> forall k :: 0 <= k < |members[i].key| ==> members[i].key[k] < 0x1_0000)
      && forall i :: 0 <= i < |members| ==> BasicPlaneKeys(members[i].value)
    case _ => true
  }

  /** Keys in the Basic Multilingual Plane never tell the two encoders apart. */
  lemma {:induction false} BasicPlaneNotInverted(v: Json)
    requires BasicPlaneKeys(v)
    ensures NoInvertedKeys(v)
  {
    match v
    case Arr(items) =>
      forall i | 0 <= i < |items| ensures NoInvertedKeys(items[i]) {
        BasicPlaneNotInverted(items[i]);
      }
    case Obj(members) =>
      forall i | 0 <= i < |members| ensures NoInvertedKeys(members[i].value) {
        BasicPlaneNotInverted(members[i].value);
      }
      forall i, j | 0 <= i < |members| && 0 <= j < |members| && i != j
        ensures !OrdersDiffer(members[i].key, members[j].key)
      {
        BasicPlaneAgrees(members[i].key, members[j].key);
      }
    case _ =>
  }

  /** U+E000 beside U+10000: the two encoders write the members in opposite orders. */
  lemma {:induction false} EncodersDiffer() returns (v: Json)
    ensures Distinct(v) && IntegersInRange(v) && AllSortable(Utf16Units, v)
    ensures Print(Utf16Units, v) != Print(CodePoints, v)
  {
    v := Obj([Member([0xE000], Null), Member([0x1_0000], Null)]);
    EncodersPrintAlike(v);
    assert OrdersDiffer(v.members[0].key, v.members[1].key);
  }
}
