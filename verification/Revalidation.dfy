/**
 Validating a canonical inspection again.

 A validator keeps the canonical bytes of what it accepted, and a later check applies the same
 validator to those bytes.  Canonical bytes hold an equal value, and every fact the validators state
 depends on the value only, except the order in which a network's members are visited.
 */
module Revalidation {
  import opened Wrappers
  import opened Utf8
  import opened CanonicalJson
  import opened CanonicalOrder
  import opened Inspect
  import opened OuterEvidence

  // ---------------------------------------------------------------- equal values, equal facts

  predicate Scalar(v: Json) {
    !v.Arr? && !v.Obj?
  }

  predicate Flat(v: Json) {
    Scalar(v) || (v.Arr? && forall i :: 0 <= i < |v.items| ==> Scalar(v.items[i]))
  }

  /** Scalars and lists of scalars equal only themselves. */
  lemma {:induction false} FlatEqual(v: Json, w: Json)
    requires Equal(v, w) && (Flat(v) || Flat(w))
    ensures v == w
  {
    if v.Arr? {
      assert forall i :: 0 <= i < |v.items| ==> v.items[i] == w.items[i];
      assert v.items == w.items;
    }
  }

  lemma {:induction false} EqualValueField(a: Fields, b: Fields, upper: Text, lower: Text)
    requires Equal(Obj(a), Obj(b))
    ensures ValueField(a, upper, lower).Some? <==> ValueField(b, upper, lower).Some?
    ensures ValueField(a, upper, lower).Some? ==>
              Equal(ValueField(a, upper, lower).value, ValueField(b, upper, lower).value)
    ensures Equal(GetOr(a, upper, lower), GetOr(b, upper, lower))
  {
    EqualGet(a, b, upper);
    EqualGet(a, b, lower);
  }

  /** A field with a flat value has it in every equal dictionary. */
  lemma {:induction false} SameValueField(a: Fields, b: Fields, upper: Text, lower: Text)
    requires Equal(Obj(a), Obj(b)) && ValueField(a, upper, lower).Some?
    requires Flat(ValueField(a, upper, lower).value)
    ensures ValueField(b, upper, lower) == ValueField(a, upper, lower)
  {
    EqualValueField(a, b, upper, lower);
    FlatEqual(ValueField(a, upper, lower).value, ValueField(b, upper, lower).value);
  }

  lemma {:induction false} SameGetOr(a: Fields, b: Fields, upper: Text, lower: Text)
    requires Equal(Obj(a), Obj(b)) && Flat(GetOr(a, upper, lower))
    ensures GetOr(b, upper, lower) == GetOr(a, upper, lower)
  {
    EqualValueField(a, b, upper, lower);
    FlatEqual(GetOr(a, upper, lower), GetOr(b, upper, lower));
  }

  lemma {:induction false} SameLabel(a: Fields, b: Fields, key: Text, value: Text)
    requires Equal(Obj(a), Obj(b)) && Get(a, key) == Some(Str(value))
    ensures Get(b, key) == Some(Str(value))
  {
    EqualGet(a, b, key);
    FlatEqual(Get(a, key).value, Get(b, key).value);
  }

  lemma {:induction false} SameLabels(a: Fields, b: Fields, expected: Labels, kind: Text)
    requires Equal(Obj(a), Obj(b)) && LabelsAre(a, expected, kind)
    ensures LabelsAre(b, expected, kind)
  {
    SameLabel(a, b, T("ai-review.owner-sha256"), expected.owner);
    SameLabel(a, b, T("ai-review.session-sha256"), expected.session);
    SameLabel(a, b, T("ai-review.kind"), kind);
  }

  lemma {:induction false} SameKeys(a: Fields, b: Fields)
    requires Equal(Obj(a), Obj(b))
    ensures Keys(a) == Keys(b)
  {
    forall i | 0 <= i < |a| ensures a[i].key in Keys(b) {
      assert b[Index(b, a[i].key)].key == a[i].key;
    }
    forall j | 0 <= j < |b| ensures b[j].key in Keys(a) {
      assert a[Index(a, b[j].key)].key == b[j].key;
    }
  }

  lemma {:induction false} SameAlias(v: Json, w: Json)
    requires Equal(v, w) && HasAlias(v)
    ensures HasAlias(w)
  {
    var i :| 0 <= i < |v.items| && v.items[i] == Str(GATEWAY_ALIAS);
    FlatEqual(v.items[i], w.items[i]);
  }

  /** The facts of a network other than its members. */
  lemma {:induction false} SameNetworkFacts(
    a: Fields, b: Fields, target: Target, internal: bool, gateway: Text, expected: Labels,
    members: Option<set<Text>>)
    requires Equal(Obj(a), Obj(b)) && NetworkFacts(a, target, internal, gateway, expected, members)
    ensures NetworkFacts(b, target, internal, gateway, expected, members)
  {
    EqualDictField(a, b, T("Labels"), T("labels"));
    SameLabels(DictField(a, T("Labels"), T("labels")).value, DictField(b, T("Labels"), T("labels")).value,
               expected, target.kind);
    SameValueField(a, b, T("Name"), T("name"));
    SameValueField(a, b, T("Internal"), T("internal"));
  }

  lemma {:induction false} EqualSections(a: Fields, b: Fields)
    requires Equal(Obj(a), Obj(b)) && GatewaySections(a).Some?
    ensures GatewaySections(b).Some?
    ensures var s, t := GatewaySections(a).value, GatewaySections(b).value;
            && Equal(Obj(s.config), Obj(t.config)) && Equal(Obj(s.host), Obj(t.host))
            && Equal(Obj(s.state), Obj(t.state)) && Equal(Obj(s.networks), Obj(t.networks))
            && Equal(Obj(s.labels), Obj(t.labels))
  {
    EqualDictField(a, b, T("Config"), T("config"));
    EqualDictField(a, b, T("HostConfig"), T("hostConfig"));
    EqualDictField(a, b, T("State"), T("state"));
    EqualDictField(a, b, T("NetworkSettings"), T("NetworkSettings"));
    EqualDictField(DictField(a, T("Config"), T("config")).value, DictField(b, T("Config"), T("config")).value,
                   T("Labels"), T("labels"));
    EqualDictField(DictField(a, T("NetworkSettings"), T("NetworkSettings")).value,
                   DictField(b, T("NetworkSettings"), T("NetworkSettings")).value, T("Networks"), T("networks"));
  }

  lemma {:induction false} EnvironmentIsFlat(fold: Text -> Text, env: Json)
    requires EnvironmentOk(fold, env)
    ensures Flat(env)
  {
    assert forall i :: 0 <= i < |env.items| ==> Assignment(env.items[i]);
  }

  lemma {:induction false} SameEnvironment(fold: Text -> Text, a: Fields, b: Fields)
    requires Equal(Obj(a), Obj(b)) && ValueField(a, T("Env"), T("env")).Some?
    requires EnvironmentOk(fold, ValueField(a, T("Env"), T("env")).value)
    ensures ValueField(b, T("Env"), T("env")) == ValueField(a, T("Env"), T("env"))
  {
    EnvironmentIsFlat(fold, ValueField(a, T("Env"), T("env")).value);
    SameValueField(a, b, T("Env"), T("env"));
  }

  /** Every field the shared facts name is the same in an equal configuration. */
  lemma {:induction false} SameConfig(a: Fields, b: Fields, image: Text)
    requires Equal(Obj(a), Obj(b))
    requires ValueField(a, T("Image"), T("image")) == Some(Str(image))
    requires ValueField(a, T("Entrypoint"), T("entrypoint")) == Some(Arr([Str(GATEWAY_ENTRYPOINT)]))
    requires ValueField(a, T("User"), T("user")) == Some(Str(CONTAINER_USER))
    ensures ValueField(b, T("Image"), T("image")) == Some(Str(image))
    ensures ValueField(b, T("Entrypoint"), T("entrypoint")) == Some(Arr([Str(GATEWAY_ENTRYPOINT)]))
    ensures ValueField(b, T("User"), T("user")) == Some(Str(CONTAINER_USER))
  {
    SameValueField(a, b, T("Image"), T("image"));
    SameValueField(a, b, T("Entrypoint"), T("entrypoint"));
    SameValueField(a, b, T("User"), T("user"));
  }

  lemma {:induction false} SameSharedFacts(
    fold: Text -> Text, a: Fields, b: Fields, s: Sections, t: Sections, shape: GatewayShape)
    requires Equal(Obj(a), Obj(b)) && Equal(Obj(s.config), Obj(t.config)) && Equal(Obj(s.host), Obj(t.host))
    requires Equal(Obj(s.networks), Obj(t.networks)) && Equal(Obj(s.labels), Obj(t.labels))
    ensures SharedGatewayFacts(fold, a, s, shape) ==> SharedGatewayFacts(fold, b, t, shape)
  {
    if SharedGatewayFacts(fold, a, s, shape) {
      SameValueField(a, b, T("Name"), T("name"));
      SameValueField(a, b, T("Mounts"), T("mounts"));
      SameConfig(s.config, t.config, shape.image);
      SameEnvironment(fold, s.config, t.config);
      SameGetOr(s.host, t.host, T("Binds"), T("binds"));
      SameKeys(s.networks, t.networks);
      SameLabels(s.labels, t.labels, shape.labels, T("gateway"));
    }
  }

  /** An option list that folds is a list of strings. */
  lemma {:induction false} OptionsAreFlat(fold: Text -> Text, v: Json)
    requires ListItems(v).Some? && Folded(fold, ListItems(v).value).Some?
    ensures Flat(v)
  {
  }

  lemma {:induction false} SameAttachmentAlias(s: Sections, t: Sections, shape: GatewayShape)
    requires Equal(Obj(s.networks), Obj(t.networks))
    requires AttachmentFields(s.networks, shape.internalNetwork).Some?
    requires HasAlias(GetOr(AttachmentFields(s.networks, shape.internalNetwork).value, T("Aliases"), T("aliases")))
    ensures AttachmentFields(t.networks, shape.internalNetwork).Some?
    ensures HasAlias(GetOr(AttachmentFields(t.networks, shape.internalNetwork).value, T("Aliases"), T("aliases")))
  {
    EqualGet(s.networks, t.networks, shape.internalNetwork);
    var x := AttachmentFields(s.networks, shape.internalNetwork).value;
    var y := AttachmentFields(t.networks, shape.internalNetwork).value;
    EqualValueField(x, y, T("Aliases"), T("aliases"));
    SameAlias(GetOr(x, T("Aliases"), T("aliases")), GetOr(y, T("Aliases"), T("aliases")));
  }

  lemma {:induction false} SameCheckerFacts(
    fold: Text -> Text, s: Sections, t: Sections, shape: GatewayShape, requireRunning: bool)
    requires Equal(Obj(s.host), Obj(t.host)) && Equal(Obj(s.state), Obj(t.state))
    requires Equal(Obj(s.networks), Obj(t.networks))
    ensures CheckerGatewayFacts(fold, s, shape, requireRunning) ==>
              CheckerGatewayFacts(fold, t, shape, requireRunning)
  {
    if CheckerGatewayFacts(fold, s, shape, requireRunning) {
      OptionsAreFlat(fold, GetOr(s.host, T("CapDrop"), T("capDrop")));
      OptionsAreFlat(fold, GetOr(s.host, T("SecurityOpt"), T("securityOpt")));
      SameGetOr(s.host, t.host, T("CapDrop"), T("capDrop"));
      SameGetOr(s.host, t.host, T("SecurityOpt"), T("securityOpt"));
      SameGetOr(s.host, t.host, T("ReadonlyRootfs"), T("readOnly"));
      SameGetOr(s.host, t.host, T("Privileged"), T("privileged"));
      SameValueField(s.state, t.state, T("Running"), T("running"));
      SameAttachmentAlias(s, t, shape);
    }
  }

  // ---------------------------------------------------------------- reading canonical bytes back

  /** What the canonical bytes of an inspection decode to. */
  function Canonical(fields: Fields): Fields {
    match Normal(CodePoints, Obj(fields))
    case Obj(members) => members
    case _ => []
  }

  lemma {:induction false} CanonicalReadsBack(fields: Fields, bytes: Bytes)
    requires Distinct(Obj(fields)) && CanonicalOne(fields) == Some(bytes)
    ensures ParseOne(bytes) == Some(Canonical(fields))
    ensures Equal(Obj(fields), Obj(Canonical(fields)))
    ensures CanonicalOne(Canonical(fields)) == Some(bytes)
  {
    var v := Arr([Obj(fields)]);
    assert Distinct(v);
    AnyKeySortable(v);
    ParseOfPrint(CodePoints, v);
    DecodeIffEncode(bytes, Print(CodePoints, v));
    StrictReturnsEqual(Obj(fields));
    assert Normal(CodePoints, v) == Arr([Normal(CodePoints, Obj(fields))]);
    assert Normal(CodePoints, v) == Arr([Obj(Canonical(fields))]);
    assert Print(CodePoints, Normal(CodePoints, v)) == Print(CodePoints, v);
  }

  predicate InspectSize(bytes: Bytes) {
    2 <= |bytes| <= MAX_INSPECT_BYTES
  }

  // ---------------------------------------------------------------- the member loop in key order

  /** An attachment bearing the gateway's bare name, without a leading slash, has the least key of all. */
  predicate BareNameLeast(attachments: Fields, gateway: Text) {
    forall i, j :: 0 <= i < |attachments| && 0 <= j < |attachments| && i != j
                   && MemberName(attachments[i].value) == Some(gateway) ==>
      KeyLess(CodePoints, attachments[i].key, attachments[j].key)
  }

  /** The network's attachments do not rely on the order they came in. */
  predicate MembersInKeyOrder(raw: Bytes, gateway: Text) {
    && ParseOne(raw).Some? && Attachments(ParseOne(raw).value).Some?
    && BareNameLeast(Attachments(ParseOne(raw).value).value, gateway)
  }

  predicate Strips(attachment: Member, gateway: Text) {
    MemberName(attachment.value).Some? && StripSlashes(MemberName(attachment.value).value) == gateway
  }

  lemma {:induction false} MembersGrow(attachments: Fields, names: set<Text>)
    requires CheckerMembers(attachments, names).Some?
    ensures names <= CheckerMembers(attachments, names).value
  {
    if attachments != [] {
      MembersGrow(attachments[1..], names + {StripSlashes(MemberName(attachments[0].value).value)});
    }
  }

  lemma {:induction false} LaterMembers(attachments: Fields, gateway: Text)
    ensures CheckerMembers(attachments, {gateway}) == Some({gateway})
       <==> forall i :: 0 <= i < |attachments| ==>
              Strips(attachments[i], gateway) && MemberName(attachments[i].value) != Some(gateway)
  {
    if attachments != [] {
      var first, others := attachments[0], attachments[1..];
      assert attachments == [first] + others;
      LaterMembers(others, gateway);
      if MemberName(first.value).Some? {
        var stripped := StripSlashes(MemberName(first.value).value);
        assert stripped == gateway ==> {gateway} + {stripped} == {gateway};
        if CheckerMembers(attachments, {gateway}) == Some({gateway}) {
          MembersGrow(others, {gateway} + {stripped});
        }
      }
    }
  }

  /** The loop finds the gateway alone: every name strips to it, and only the first may be bare. */
  lemma {:induction false} LoopFindsGateway(attachments: Fields, gateway: Text)
    ensures CheckerMembers(attachments, {}) == Some({gateway})
       <==> && attachments != []
            && (forall i :: 0 <= i < |attachments| ==> Strips(attachments[i], gateway))
            && OnlyFirstBare(attachments, gateway)
  {
    if attachments != [] && MemberName(attachments[0].value).Some? {
      var first, others := attachments[0], attachments[1..];
      var stripped := StripSlashes(MemberName(first.value).value);
      assert attachments == [first] + others && {} + {stripped} == {stripped};
      LaterMembers(others, gateway);
      if CheckerMembers(attachments, {}).Some? {
        MembersGrow(others, {stripped});
      }
    }
  }

  /** Two dictionaries that are equal hold the same names under the same keys. */
  lemma {:induction false} SameNameUnderKey(a: Fields, b: Fields, gateway: Text, j: nat) returns (i: nat)
    requires Equal(Obj(a), Obj(b)) && DistinctKeys(b) && j < |b|
    requires forall k :: 0 <= k < |a| ==> Strips(a[k], gateway)
    ensures i < |a| && a[i].key == b[j].key && MemberName(a[i].value) == MemberName(b[j].value)
  {
    i := Index(a, b[j].key);
    DistinctIndex(b, j);
    EqualMemberName(a[i].value, b[j].value);
  }

  predicate OnlyFirstBare(attachments: Fields, gateway: Text) {
    forall i :: 0 < i < |attachments| ==> MemberName(attachments[i].value) != Some(gateway)
  }

  lemma {:induction false} LeastComesFirst(a: Fields, b: Fields, gateway: Text, j: nat)
    requires Equal(Obj(a), Obj(b)) && DistinctKeys(b) && SortedBy(CodePoints, b) && BareNameLeast(a, gateway)
    requires forall k :: 0 <= k < |a| ==> Strips(a[k], gateway)
    requires 0 < j < |b|
    ensures MemberName(b[j].value) != Some(gateway)
  {
    var i := SameNameUnderKey(a, b, gateway, j);
    var least := SameNameUnderKey(a, b, gateway, 0);
    KeyLessTotal(CodePoints, b[0].key, b[j].key);
  }

  /** Once sorted, only the first may be bare exactly when the bare name has the least key. */
  lemma {:induction false} SortedNames(a: Fields, b: Fields, gateway: Text)
    requires Equal(Obj(a), Obj(b)) && DistinctKeys(a) && DistinctKeys(b) && SortedBy(CodePoints, b)
    requires forall k :: 0 <= k < |a| ==> Strips(a[k], gateway)
    ensures OnlyFirstBare(b, gateway) <==> BareNameLeast(a, gateway)
  {
    if BareNameLeast(a, gateway) {
      forall j | 0 < j < |b| ensures MemberName(b[j].value) != Some(gateway) {
        LeastComesFirst(a, b, gateway, j);
      }
    }
    if OnlyFirstBare(b, gateway) {
      forall i, k | 0 <= i < |a| && 0 <= k < |a| && i != k && MemberName(a[i].value) == Some(gateway)
        ensures KeyLess(CodePoints, a[i].key, a[k].key)
      {
        BareNameFirst(a, b, gateway, i, k);
      }
    }
  }

  lemma {:induction false} AllStrip(a: Fields, b: Fields, gateway: Text)
    requires Equal(Obj(a), Obj(b)) && DistinctKeys(b) && a != []
    requires forall k :: 0 <= k < |a| ==> Strips(a[k], gateway)
    ensures b != [] && forall j :: 0 <= j < |b| ==> Strips(b[j], gateway)
  {
    assert Index(b, a[0].key) < |b|;
    forall j | 0 <= j < |b| ensures Strips(b[j], gateway) {
      var i := SameNameUnderKey(a, b, gateway, j);
      assert Strips(a[i], gateway);
    }
  }

  /** Once sorted, the loop still finds the gateway alone exactly when the bare name has the least key. */
  lemma {:induction false} SortedLoop(a: Fields, b: Fields, gateway: Text)
    requires Equal(Obj(a), Obj(b)) && DistinctKeys(a) && DistinctKeys(b) && SortedBy(CodePoints, b)
    requires CheckerMembers(a, {}) == Some({gateway})
    ensures CheckerMembers(b, {}) == Some({gateway}) <==> BareNameLeast(a, gateway)
  {
    LoopFindsGateway(a, gateway);
    LoopFindsGateway(b, gateway);
    AllStrip(a, b, gateway);
    SortedNames(a, b, gateway);
  }

  lemma {:induction false} BareNameFirst(a: Fields, b: Fields, gateway: Text, i: nat, k: nat)
    requires Equal(Obj(a), Obj(b)) && DistinctKeys(a) && SortedBy(CodePoints, b)
    requires i < |a| && k < |a| && i != k && MemberName(a[i].value) == Some(gateway)
    requires OnlyFirstBare(b, gateway)
    ensures KeyLess(CodePoints, a[i].key, a[k].key)
  {
    var j, l := Index(b, a[i].key), Index(b, a[k].key);
    EqualMemberName(a[i].value, b[j].value);
    assert a[i].key != a[k].key;
    assert j == 0 && 0 < l < |b|;
  }

  /** Each dictionary held by a canonical one is sorted by key. */
  lemma {:induction false} CanonicalIsSorted(fields: Fields, k: nat)
    requires Distinct(Obj(fields)) && k < |Canonical(fields)| && Canonical(fields)[k].value.Obj?
    ensures SortedBy(CodePoints, Canonical(fields)[k].value.members)
  {
    var normal := NormalMembers(CodePoints, fields);
    SortContents(CodePoints, normal);
    assert Canonical(fields)[k] in normal;
    var i :| 0 <= i < |normal| && normal[i] == Canonical(fields)[k];
    var original := fields[i].value;
    assert normal[i] == Member(fields[i].key, Normal(CodePoints, original)) && Distinct(original);
    assert Normal(CodePoints, original).Obj? ==> original.Obj?;
    AnyKeySortable(original);
    NormalObject(CodePoints, original.members);
  }

  /** The attachments of a canonical network are sorted by key, each key once. */
  lemma {:induction false} CanonicalAttachments(fields: Fields)
    requires Distinct(Obj(fields)) && Attachments(fields).Some? && Attachments(Canonical(fields)).Some?
    ensures var members := Attachments(Canonical(fields)).value;
            DistinctKeys(members) && SortedBy(CodePoints, members)
  {
    AnyKeySortable(Obj(fields));
    NormalDistinct(CodePoints, Obj(fields));
    var other := Canonical(fields);
    var k := Index(other, if Get(other, T("Containers")).Some? then T("Containers") else T("containers"));
    assert other[k].value == Obj(Attachments(other).value) && Distinct(other[k].value);
    CanonicalIsSorted(fields, k);
  }

  /** The member loop run on the canonical attachments, in terms of names and keys as they came. */
  lemma {:induction false} KeyOrderIff(fields: Fields, gateway: Text)
    requires Distinct(Obj(fields)) && CheckerNetworkMembers(fields) == Some({gateway})
    ensures CheckerNetworkMembers(Canonical(fields)) == Some({gateway})
       <==> BareNameLeast(Attachments(fields).value, gateway)
  {
    StrictReturnsEqual(Obj(fields));
    EqualValueField(fields, Canonical(fields), T("Containers"), T("containers"));
    CanonicalAttachments(fields);
    assert Distinct(Obj(Attachments(fields).value));
    SortedLoop(Attachments(fields).value, Attachments(Canonical(fields)).value, gateway);
  }

  /**
   An accepted network's canonical bytes are accepted again exactly when they fit and the attachment with
   the gateway's bare name, if any, has the least key.
   */
  lemma {:induction false} NetworkRevalidates(
    raw: Bytes, target: Target, internal: bool, gateway: Text, expected: Labels)
    requires CheckerNetwork(raw, target, internal, gateway, expected).Some?
    ensures var bytes := CheckerNetwork(raw, target, internal, gateway, expected).value;
            CheckerNetwork(bytes, target, internal, gateway, expected) == Some(bytes)
            <==> InspectSize(bytes) && MembersInKeyOrder(raw, gateway)
  {
    var fields := CheckerParseOne(raw).value;
    var bytes := CheckerNetwork(raw, target, internal, gateway, expected).value;
    ParsedDistinct(raw);
    CanonicalReadsBack(fields, bytes);
    KeyOrderIff(fields, gateway);
    SameNetworkFacts(fields, Canonical(fields), target, internal, gateway, expected, Some({gateway}));
  }

  predicate GatewayFields(fold: Text -> Text, fields: Fields, shape: GatewayShape, requireRunning: bool) {
    var s := GatewaySections(fields);
    && s.Some? && SharedGatewayFacts(fold, fields, s.value, shape)
    && CheckerGatewayFacts(fold, s.value, shape, requireRunning)
  }

  lemma {:induction false} SameGateway(
    fold: Text -> Text, a: Fields, b: Fields, shape: GatewayShape, requireRunning: bool)
    requires Equal(Obj(a), Obj(b))
    ensures GatewayFields(fold, a, shape, requireRunning) ==> GatewayFields(fold, b, shape, requireRunning)
  {
    if GatewaySections(a).Some? {
      EqualSections(a, b);
      var s, t := GatewaySections(a).value, GatewaySections(b).value;
      SameSharedFacts(fold, a, b, s, t, shape);
      SameCheckerFacts(fold, s, t, shape, requireRunning);
    }
  }

  lemma {:induction false} GatewayByFields(
    fold: Text -> Text, raw: Bytes, shape: GatewayShape, requireRunning: bool)
    ensures CheckerGateway(fold, raw, shape, requireRunning)
         == var fields := CheckerParseOne(raw);
            if fields.Some? && GatewayFields(fold, fields.value, shape, requireRunning)
            then CanonicalOne(fields.value) else None
  {
  }

  /** An accepted gateway's canonical bytes are accepted again exactly when they fit. */
  lemma {:induction false} GatewayRevalidates(
    fold: Text -> Text, raw: Bytes, shape: GatewayShape, requireRunning: bool)
    requires CheckerGateway(fold, raw, shape, requireRunning).Some?
    ensures var bytes := CheckerGateway(fold, raw, shape, requireRunning).value;
            CheckerGateway(fold, bytes, shape, requireRunning) == Some(bytes) <==> InspectSize(bytes)
  {
    GatewayByFields(fold, raw, shape, requireRunning);
    var fields := CheckerParseOne(raw).value;
    var bytes := CheckerGateway(fold, raw, shape, requireRunning).value;
    GatewayByFields(fold, bytes, shape, requireRunning);
    ParsedDistinct(raw);
    CanonicalReadsBack(fields, bytes);
    SameGateway(fold, fields, Canonical(fields), shape, requireRunning);
  }

  /** A network with a single member is accepted again exactly when its canonical bytes fit. */
  lemma {:induction false} SingleMemberKeepsOrder(
    raw: Bytes, target: Target, internal: bool, gateway: Text, expected: Labels)
    requires CheckerNetwork(raw, target, internal, gateway, expected).Some?
    requires |Attachments(ParseOne(raw).value).value| == 1
    ensures var bytes := CheckerNetwork(raw, target, internal, gateway, expected).value;
            CheckerNetwork(bytes, target, internal, gateway, expected) == Some(bytes) <==> InspectSize(bytes)
  {
    NetworkRevalidates(raw, target, internal, gateway, expected);
  }

  lemma {:induction false} EqualMemberName(v: Json, w: Json)
    requires Equal(v, w) && MemberName(v).Some?
    ensures MemberName(w) == MemberName(v)
  {
    SameGetOr(v.members, w.members, T("Name"), T("name"));
  }

  /**
   The order does matter: with `g` stored before `/g` under a larger key, a network is accepted as it
   came, and refused once its members are visited in key order.
   */
  lemma {:induction false} KeyOrderMatters() returns (a: Fields, b: Fields)
    ensures Equal(Obj(a), Obj(b)) && SortedBy(CodePoints, b)
    ensures CheckerMembers(a, {}) == Some({[103]}) && CheckerMembers(b, {}).None?
  {
    var plain, slashed := Obj([Member(T("Name"), Str([103]))]), Obj([Member(T("Name"), Str([47, 103]))]);
    a := [Member([98], plain), Member([97], slashed)];
    b := [Member([97], slashed), Member([98], plain)];
    assert [47, 103][1..] == [103];
    assert StripSlashes([103]) == [103] && StripSlashes([47, 103]) == [103];
    assert MemberName(plain) == Some([103]) && MemberName(slashed) == Some([47, 103]);
    var restA, restB := a[1..], b[1..];
    assert restA[0].value == slashed && restA[1..] == [] && restB[0].value == plain;
    assert {} + {[103]} == {[103]} && {[103]} + {[103]} == {[103]};
    assert CheckerMembers(restA, {[103]}) == CheckerMembers(restA[1..], {[103]} + {[103]});
    assert CheckerMembers(restB, {[103]}) == None;
  }
}
