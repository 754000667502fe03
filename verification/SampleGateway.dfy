/**
 A gateway inspection written out in full, and the proof that its own bytes decode to it: small enough,
 printable and without a repeated key.
 */
module SampleGateway {
  import opened Wrappers
  import opened Utf8
  import opened CanonicalJson
  import opened JsonRoundTrip
  import opened CanonicalOrder
  import opened Inspect
  import opened Lifecycle

  // ---------------------------------------------------------------- dictionaries with known keys

  function FieldsOf(keys: seq<string>, values: seq<Json>): (fields: Fields)
    requires |keys| == |values|
    ensures |fields| == |keys|
  {
    seq(|keys|, i requires 0 <= i < |keys| => Member(T(keys[i]), values[i]))
  }

  predicate DistinctNames(keys: seq<string>) {
    forall i, j :: 0 <= i < j < |keys| ==> keys[i] != keys[j]
  }

  lemma {:induction false} SameName(a: string, b: string)
    requires T(a) == T(b)
    ensures a == b
  {
    forall i | 0 <= i < |a| ensures a[i] == b[i] {
      assert T(a)[i] == T(b)[i];
    }
  }

  lemma {:induction false} NamesDistinct(keys: seq<string>, values: seq<Json>)
    requires |keys| == |values| && DistinctNames(keys)
    ensures DistinctKeys(FieldsOf(keys, values))
  {
    forall i, j | 0 <= i < j < |keys| ensures T(keys[i]) != T(keys[j]) {
      if T(keys[i]) == T(keys[j]) {
        SameName(keys[i], keys[j]);
      }
    }
  }

  lemma {:induction false} Found(keys: seq<string>, values: seq<Json>, i: nat)
    requires |keys| == |values| && DistinctNames(keys) && i < |keys|
    ensures Get(FieldsOf(keys, values), T(keys[i])) == Some(values[i])
  {
    NamesDistinct(keys, values);
    DistinctIndex(FieldsOf(keys, values), i);
  }

  lemma {:induction false} NotFound(keys: seq<string>, values: seq<Json>, key: string)
    requires |keys| == |values| && key !in keys
    ensures Get(FieldsOf(keys, values), T(key)).None?
  {
    var fields := FieldsOf(keys, values);
    if Index(fields, T(key)) < |fields| {
      SameName(keys[Index(fields, T(key))], key);
    }
  }

  // ---------------------------------------------------------------- how long its bytes are

  predicate Printable(text: Text, limit: nat) {
    Scalars(text) && |text| <= limit && forall i :: 0 <= i < |text| ==> text[i] >= 32
  }

  /** The value prints to at most `bound` scalars, in whatever order its members are. */
  ghost predicate Fits(v: Json, bound: nat) {
    && Distinct(v)
    && |Emit(v)| <= bound && Scalars(Emit(v))
    && |Emit(Normal(CodePoints, v))| <= bound && Scalars(Emit(Normal(CodePoints, v)))
  }

  lemma {:induction false} CharsFit(text: Text)
    requires Printable(text, |text|)
    ensures Scalars(EmitChars(text)) && |EmitChars(text)| <= 2 * |text|
  {
    if text != [] {
      CharsFit(text[1..]);
    }
  }

  lemma {:induction false} StringFits(text: Text, limit: nat)
    requires Printable(text, limit)
    ensures Fits(Str(text), 2 * limit + 2)
  {
    CharsFit(text);
  }

  lemma {:induction false} ItemsFit(items: seq<Json>, bound: nat)
    requires forall i :: 0 <= i < |items| ==> Scalars(Emit(items[i])) && |Emit(items[i])| <= bound
    ensures Scalars(EmitItems(items)) && |EmitItems(items)| <= |items| * (bound + 1)
  {
    if items != [] {
      ItemsFit(items[1..], bound);
      assert |items| * (bound + 1) == (|items| - 1) * (bound + 1) + (bound + 1);
    }
  }

  lemma {:induction false} ListFits(items: seq<Json>, bound: nat)
    requires forall i :: 0 <= i < |items| ==> Fits(items[i], bound)
    ensures Fits(Arr(items), |items| * (bound + 1) + 2)
  {
    ItemsFit(items, bound);
    ItemsFit(NormalItems(CodePoints, items), bound);
  }

  lemma {:induction false} MemberFits(member: Member, limit: nat, bound: nat)
    requires Printable(member.key, limit) && Scalars(Emit(member.value)) && |Emit(member.value)| <= bound
    ensures Scalars(EmitMember(member)) && |EmitMember(member)| <= 2 * limit + bound + 3
  {
    CharsFit(member.key);
  }

  lemma {:induction false} MembersFit(members: seq<Member>, limit: nat, bound: nat)
    requires forall i :: 0 <= i < |members| ==>
               Printable(members[i].key, limit) && Scalars(Emit(members[i].value)) && |Emit(members[i].value)| <= bound
    ensures Scalars(EmitMembers(members)) && |EmitMembers(members)| <= |members| * (2 * limit + bound + 4)
  {
    if members != [] {
      MemberFits(members[0], limit, bound);
      MembersFit(members[1..], limit, bound);
      var each := 2 * limit + bound + 4;
      assert |members| * each == (|members| - 1) * each + each;
    }
  }

  lemma {:induction false} SortLength(order: KeyOrder, members: seq<Member>)
    ensures |Sort(order, members)| == |members|
  {
    if members != [] {
      SortLength(order, members[1..]);
      InsertLength(order, members[0], Sort(order, members[1..]));
    }
  }

  lemma {:induction false} InsertLength(order: KeyOrder, member: Member, members: seq<Member>)
    ensures |Insert(order, member, members)| == |members| + 1
  {
    if members != [] && !KeyLess(order, member.key, members[0].key) {
      InsertLength(order, member, members[1..]);
    }
  }

  function ObjectBound(count: nat, limit: nat, bound: nat): nat {
    count * (2 * limit + bound + 4) + 2
  }

  lemma {:induction false} ObjectFits(members: Fields, limit: nat, bound: nat)
    requires DistinctKeys(members)
    requires forall i :: 0 <= i < |members| ==> Printable(members[i].key, limit) && Fits(members[i].value, bound)
    ensures Fits(Obj(members), ObjectBound(|members|, limit, bound))
  {
    MembersFit(members, limit, bound);
    var normal := NormalMembers(CodePoints, members);
    var sorted := Sort(CodePoints, normal);
    SortLength(CodePoints, normal);
    SortContents(CodePoints, normal);
    forall i | 0 <= i < |sorted|
      ensures Printable(sorted[i].key, limit) && Scalars(Emit(sorted[i].value)) && |Emit(sorted[i].value)| <= bound
    {
      assert sorted[i] in normal;
    }
    MembersFit(sorted, limit, bound);
  }

  lemma {:induction false} EncodedLength(text: Text)
    requires Scalars(text)
    ensures |EncodeAll(text)| <= 4 * |text|
  {
    if text != [] {
      EncodedLength(text[1..]);
    }
  }

  /** A small enough record is what the coordinator's reader makes of its own bytes. */
  lemma {:induction false} ReadBack(fields: Fields, bound: nat) returns (raw: Bytes)
    requires Fits(Arr([Obj(fields)]), bound) && 4 * bound <= MAX_INSPECT_BYTES
    ensures CheckerParseOne(raw) == Some(fields)
  {
    var v := Arr([Obj(fields)]);
    raw := EncodeAll(Emit(v));
    EncodedLength(Emit(v));
    DecodeEncode(Emit(v));
    ParseOfEmit(v);
    assert ParseOne(raw) == Some(fields);
    ParsedSize(raw);
  }

  // ---------------------------------------------------------------- the gateway of the sample names

  const SAMPLE_NAMES := Names(T("gateway"), T("inside"), T("outside"), T("image"), Labels(T("owner"), T("session")))

  const TOP_KEYS := ["Name", "Mounts", "Config", "HostConfig", "State", "NetworkSettings"]
  const CONFIG_KEYS := ["Env", "Labels", "Entrypoint", "Image", "User"]
  const HOST_KEYS := ["CapDrop", "SecurityOpt", "ReadonlyRootfs", "Privileged"]
  const LABEL_KEYS := ["ai-review.owner-sha256", "ai-review.session-sha256", "ai-review.kind"]

  /** The gateway of the sample names as its runtime shows it, with this name and these dropped capabilities. */
  function GatewayRecord(name: Json, dropped: seq<Json>): Fields {
    FieldsOf(TOP_KEYS, [name, Arr([]), Obj(ConfigRecord()), Obj(HostRecord(dropped)), Obj(StateRecord()),
                        Obj(SettingsRecord())])
  }

  function ConfigRecord(): Fields {
    FieldsOf(CONFIG_KEYS, [Arr([Str(GATEWAY_MARKER)]), Obj(LabelRecord()), Arr([Str(GATEWAY_ENTRYPOINT)]),
                           Str(T("image")), Str(CONTAINER_USER)])
  }

  function LabelRecord(): Fields {
    FieldsOf(LABEL_KEYS, [Str(T("owner")), Str(T("session")), Str(T("gateway"))])
  }

  function HostRecord(dropped: seq<Json>): Fields {
    FieldsOf(HOST_KEYS, [Arr(dropped), Arr([Str(T("no-new-privileges"))]), Bool(true), Bool(false)])
  }

  function StateRecord(): Fields {
    FieldsOf(["Running"], [Bool(true)])
  }

  function SettingsRecord(): Fields {
    FieldsOf(["Networks"], [Obj(NetworksRecord())])
  }

  function NetworksRecord(): Fields {
    FieldsOf(["inside", "outside"], [Obj(AttachmentRecord()), Obj(AttachmentRecord())])
  }

  function AttachmentRecord(): Fields {
    FieldsOf(["Aliases"], [Arr([Str(GATEWAY_ALIAS)])])
  }

  predicate Visible(s: string, limit: nat) {
    |s| <= limit && forall i :: 0 <= i < |s| ==> s[i] >= ' '
  }

  lemma {:induction false} VisibleShown(s: string, limit: nat)
    requires Visible(s, limit)
    ensures Printable(T(s), limit) && Fits(Str(T(s)), 2 * limit + 2)
  {
    StringFits(T(s), limit);
  }

  predicate AllVisible(keys: seq<string>, limit: nat) {
    forall i :: 0 <= i < |keys| ==> Visible(keys[i], limit)
  }

  ghost predicate AllFit(values: seq<Json>, bound: nat) {
    forall i :: 0 <= i < |values| ==> Fits(values[i], bound)
  }

  lemma {:induction false} AlsoFits(values: seq<Json>, v: Json, bound: nat)
    requires AllFit(values, bound) && Fits(v, bound)
    ensures AllFit(values + [v], bound)
  {
  }

  lemma {:induction false} SixFit(a: Json, b: Json, c: Json, d: Json, e: Json, f: Json, bound: nat)
    requires Fits(a, bound) && Fits(b, bound) && Fits(c, bound)
    requires Fits(d, bound) && Fits(e, bound) && Fits(f, bound)
    ensures AllFit([a], bound) && AllFit([a, b], bound) && AllFit([a, b, c], bound)
    ensures AllFit([a, b, c, d], bound) && AllFit([a, b, c, d, e], bound) && AllFit([a, b, c, d, e, f], bound)
  {
    AlsoFits([a], b, bound);
    AlsoFits([a, b], c, bound);
    AlsoFits([a, b, c], d, bound);
    AlsoFits([a, b, c, d], e, bound);
    AlsoFits([a, b, c, d, e], f, bound);
    assert [a] + [b] == [a, b] && [a, b] + [c] == [a, b, c] && [a, b, c] + [d] == [a, b, c, d];
    assert [a, b, c, d] + [e] == [a, b, c, d, e] && [a, b, c, d, e] + [f] == [a, b, c, d, e, f];
  }

  lemma {:induction false} RecordFits(keys: seq<string>, values: seq<Json>, bound: nat)
    requires |keys| == |values| && DistinctNames(keys) && AllVisible(keys, 24) && AllFit(values, bound)
    ensures Fits(Obj(FieldsOf(keys, values)), |keys| * (bound + 52) + 2)
  {
    NamesDistinct(keys, values);
    var fields := FieldsOf(keys, values);
    forall i | 0 <= i < |fields| ensures Printable(fields[i].key, 24) && Fits(fields[i].value, bound) {
      VisibleShown(keys[i], 24);
    }
    ObjectFits(fields, 24, bound);
  }

  lemma {:induction false} OneStringFits(s: string)
    requires Visible(s, 33)
    ensures Fits(Str(T(s)), 68) && Fits(Arr([Str(T(s))]), 71)
  {
    VisibleShown(s, 33);
    ListFits([Str(T(s))], 68);
  }

  lemma {:induction false} LabelKeys()
    ensures DistinctNames(LABEL_KEYS) && AllVisible(LABEL_KEYS, 24)
  {
  }

  lemma {:induction false} ConfigKeys()
    ensures DistinctNames(CONFIG_KEYS) && AllVisible(CONFIG_KEYS, 24)
  {
  }

  lemma {:induction false} HostKeys()
    ensures DistinctNames(HOST_KEYS) && AllVisible(HOST_KEYS, 24)
  {
  }

  lemma {:induction false} TopKeys()
    ensures DistinctNames(TOP_KEYS) && AllVisible(TOP_KEYS, 24)
  {
  }

  lemma {:induction false} FitsWithin(v: Json, bound: nat, larger: nat)
    requires Fits(v, bound) && bound <= larger
    ensures Fits(v, larger)
  {
  }

  lemma {:induction false} MarkerFits()
    ensures Fits(Arr([Str(GATEWAY_MARKER)]), 71)
  {
    OneStringFits("AI_REVIEW_EGRESS_GATEWAY=1");
  }

  lemma {:induction false} EntryFits()
    ensures Fits(Arr([Str(GATEWAY_ENTRYPOINT)]), 71)
  {
    OneStringFits("/opt/ai-review/bin/egress-gateway");
  }

  lemma {:induction false} AliasFits()
    ensures Fits(Arr([Str(GATEWAY_ALIAS)]), 71)
  {
    OneStringFits("ai-review-egress-gateway");
  }

  lemma {:induction false} OptionFits()
    ensures Fits(Arr([Str(T("no-new-privileges"))]), 71)
  {
    OneStringFits("no-new-privileges");
  }

  lemma {:induction false} UserFits()
    ensures Fits(Str(CONTAINER_USER), 71) && Fits(Str(T("image")), 71)
  {
    OneStringFits("65532:65532");
    OneStringFits("image");
    FitsWithin(Str(CONTAINER_USER), 68, 71);
    FitsWithin(Str(T("image")), 68, 71);
  }

  lemma {:induction false} LabelTextsFit()
    ensures Fits(Str(T("owner")), 68) && Fits(Str(T("session")), 68) && Fits(Str(T("gateway")), 68)
  {
    OneStringFits("owner");
    OneStringFits("session");
    OneStringFits("gateway");
  }

  lemma {:induction false} LabelsFit()
    ensures Fits(Obj(LabelRecord()), 362)
  {
    LabelTextsFit();
    LabelKeys();
    ThreeRecord(LABEL_KEYS, Str(T("owner")), Str(T("session")), Str(T("gateway")), 68);
  }

  lemma {:induction false} ThreeRecord(keys: seq<string>, a: Json, b: Json, c: Json, bound: nat)
    requires |keys| == 3 && DistinctNames(keys) && AllVisible(keys, 24)
    requires Fits(a, bound) && Fits(b, bound) && Fits(c, bound)
    ensures Fits(Obj(FieldsOf(keys, [a, b, c])), 3 * (bound + 52) + 2)
  {
    SixFit(a, b, c, c, c, c, bound);
    RecordFits(keys, [a, b, c], bound);
  }

  lemma {:induction false} FourRecord(keys: seq<string>, a: Json, b: Json, c: Json, d: Json, bound: nat)
    requires |keys| == 4 && DistinctNames(keys) && AllVisible(keys, 24)
    requires Fits(a, bound) && Fits(b, bound) && Fits(c, bound) && Fits(d, bound)
    ensures Fits(Obj(FieldsOf(keys, [a, b, c, d])), 4 * (bound + 52) + 2)
  {
    SixFit(a, b, c, d, d, d, bound);
    RecordFits(keys, [a, b, c, d], bound);
  }

  lemma {:induction false} FiveRecord(keys: seq<string>, a: Json, b: Json, c: Json, d: Json, e: Json, bound: nat)
    requires |keys| == 5 && DistinctNames(keys) && AllVisible(keys, 24)
    requires Fits(a, bound) && Fits(b, bound) && Fits(c, bound) && Fits(d, bound) && Fits(e, bound)
    ensures Fits(Obj(FieldsOf(keys, [a, b, c, d, e])), 5 * (bound + 52) + 2)
  {
    SixFit(a, b, c, d, e, e, bound);
    RecordFits(keys, [a, b, c, d, e], bound);
  }

  lemma {:induction false} SixRecord(
    keys: seq<string>, a: Json, b: Json, c: Json, d: Json, e: Json, f: Json, bound: nat)
    requires |keys| == 6 && DistinctNames(keys) && AllVisible(keys, 24)
    requires Fits(a, bound) && Fits(b, bound) && Fits(c, bound)
    requires Fits(d, bound) && Fits(e, bound) && Fits(f, bound)
    ensures Fits(Obj(FieldsOf(keys, [a, b, c, d, e, f])), 6 * (bound + 52) + 2)
  {
    SixFit(a, b, c, d, e, f, bound);
    RecordFits(keys, [a, b, c, d, e, f], bound);
  }

  lemma {:induction false} ConfigFits()
    ensures Fits(Obj(ConfigRecord()), 2072)
  {
    MarkerFits();
    EntryFits();
    UserFits();
    LabelsFit();
    ConfigKeys();
    var marker, entry := Arr([Str(GATEWAY_MARKER)]), Arr([Str(GATEWAY_ENTRYPOINT)]);
    FitsWithin(marker, 71, 362);
    FitsWithin(entry, 71, 362);
    FitsWithin(Str(T("image")), 71, 362);
    FitsWithin(Str(CONTAINER_USER), 71, 362);
    FiveRecord(CONFIG_KEYS, marker, Obj(LabelRecord()), entry, Str(T("image")), Str(CONTAINER_USER), 362);
  }

  lemma {:induction false} SingleRecord(key: string, v: Json, bound: nat)
    requires Visible(key, 24) && Fits(v, bound)
    ensures Fits(Obj(FieldsOf([key], [v])), bound + 54)
  {
    RecordFits([key], [v], bound);
  }

  lemma {:induction false} TwoRecord(keys: seq<string>, a: Json, b: Json, bound: nat)
    requires |keys| == 2 && DistinctNames(keys) && AllVisible(keys, 24)
    requires Fits(a, bound) && Fits(b, bound)
    ensures Fits(Obj(FieldsOf(keys, [a, b])), 2 * (bound + 52) + 2)
  {
    SixFit(a, b, b, b, b, b, bound);
    RecordFits(keys, [a, b], bound);
  }

  lemma {:induction false} NetworksFit()
    ensures Fits(Obj(SettingsRecord()), 410)
  {
    AliasFits();
    SingleRecord("Aliases", Arr([Str(GATEWAY_ALIAS)]), 71);
    var attachment := Obj(AttachmentRecord());
    NetworkKeys();
    TwoRecord(["inside", "outside"], attachment, attachment, 125);
    SingleRecord("Networks", Obj(NetworksRecord()), 356);
  }

  lemma {:induction false} NetworkKeys()
    ensures DistinctNames(["inside", "outside"]) && AllVisible(["inside", "outside"], 24)
  {
  }

  lemma {:induction false} StateFits()
    ensures Fits(Bool(true), 5) && Fits(Bool(false), 5) && Fits(Obj(StateRecord()), 59)
  {
    SingleRecord("Running", Bool(true), 5);
  }

  lemma {:induction false} HostFits(dropped: seq<Json>)
    requires Fits(Arr(dropped), 71)
    ensures Fits(Obj(HostRecord(dropped)), 494)
  {
    OptionFits();
    StateFits();
    HostKeys();
    FitsWithin(Bool(true), 5, 71);
    FitsWithin(Bool(false), 5, 71);
    FourRecord(HOST_KEYS, Arr(dropped), Arr([Str(T("no-new-privileges"))]), Bool(true), Bool(false), 71);
  }

  lemma {:induction false} PartsFit(dropped: seq<Json>)
    requires Fits(Arr(dropped), 71)
    ensures Fits(Arr([]), 2072) && Fits(Obj(ConfigRecord()), 2072) && Fits(Obj(HostRecord(dropped)), 2072)
    ensures Fits(Obj(StateRecord()), 2072) && Fits(Obj(SettingsRecord()), 2072)
  {
    ConfigFits();
    HostFits(dropped);
    StateFits();
    NetworksFit();
    ListFits([], 0);
    FitsWithin(Arr([]), 2, 2072);
    FitsWithin(Obj(HostRecord(dropped)), 494, 2072);
    FitsWithin(Obj(StateRecord()), 59, 2072);
    FitsWithin(Obj(SettingsRecord()), 410, 2072);
  }

  lemma {:induction false} GatewayFits(name: Json, dropped: seq<Json>)
    requires Fits(name, 71) && Fits(Arr(dropped), 71)
    ensures Fits(Obj(GatewayRecord(name, dropped)), 12746)
  {
    PartsFit(dropped);
    FitsWithin(name, 71, 2072);
    TopKeys();
    SixRecord(TOP_KEYS, name, Arr([]), Obj(ConfigRecord()), Obj(HostRecord(dropped)), Obj(StateRecord()),
              Obj(SettingsRecord()), 2072);
  }

  lemma {:induction false} RecordRead(name: Json, dropped: seq<Json>) returns (raw: Bytes)
    requires Fits(name, 71) && Fits(Arr(dropped), 71)
    ensures CheckerParseOne(raw) == Some(GatewayRecord(name, dropped))
  {
    GatewayFits(name, dropped);
    ListFits([Obj(GatewayRecord(name, dropped))], 12746);
    raw := ReadBack(GatewayRecord(name, dropped), 12749);
  }

  lemma {:induction false} TopFields(name: Json, dropped: seq<Json>)
    ensures var fields := GatewayRecord(name, dropped);
            && Get(fields, T("Name")) == Some(name) && Get(fields, T("Mounts")) == Some(Arr([]))
            && Get(fields, T("Config")) == Some(Obj(ConfigRecord()))
            && Get(fields, T("HostConfig")) == Some(Obj(HostRecord(dropped)))
            && Get(fields, T("State")) == Some(Obj(StateRecord()))
            && Get(fields, T("NetworkSettings")) == Some(Obj(SettingsRecord()))
  {
    var values := [name, Arr([]), Obj(ConfigRecord()), Obj(HostRecord(dropped)), Obj(StateRecord()),
                   Obj(SettingsRecord())];
    TopKeys();
    Found(TOP_KEYS, values, 0);
    Found(TOP_KEYS, values, 1);
    Found(TOP_KEYS, values, 2);
    Found(TOP_KEYS, values, 3);
    Found(TOP_KEYS, values, 4);
    Found(TOP_KEYS, values, 5);
  }

  lemma {:induction false} SectionsByParts(fields: Fields, s: Sections, settings: Fields)
    requires Get(fields, T("Config")) == Some(Obj(s.config)) && Get(fields, T("HostConfig")) == Some(Obj(s.host))
    requires Get(fields, T("State")) == Some(Obj(s.state))
    requires Get(fields, T("NetworkSettings")) == Some(Obj(settings))
    requires Get(settings, T("Networks")) == Some(Obj(s.networks))
    requires Get(s.config, T("Labels")) == Some(Obj(s.labels))
    ensures GatewaySections(fields) == Some(s)
  {
  }

  function SampleSections(dropped: seq<Json>): Sections {
    Sections(ConfigRecord(), HostRecord(dropped), StateRecord(), NetworksRecord(), LabelRecord())
  }

  lemma {:induction false} TopValues(name: Json, dropped: seq<Json>)
    ensures GatewaySections(GatewayRecord(name, dropped)) == Some(SampleSections(dropped))
  {
    TopFields(name, dropped);
    Found(["Networks"], [Obj(NetworksRecord())], 0);
    ConfigValues();
    SectionsByParts(GatewayRecord(name, dropped), SampleSections(dropped), SettingsRecord());
  }

  lemma {:induction false} ConfigValues()
    ensures Get(ConfigRecord(), T("Env")) == Some(Arr([Str(GATEWAY_MARKER)]))
    ensures Get(ConfigRecord(), T("Labels")) == Some(Obj(LabelRecord()))
    ensures Get(ConfigRecord(), T("Entrypoint")) == Some(Arr([Str(GATEWAY_ENTRYPOINT)]))
    ensures Get(ConfigRecord(), T("Image")) == Some(Str(T("image")))
    ensures Get(ConfigRecord(), T("User")) == Some(Str(CONTAINER_USER))
  {
    var values := [Arr([Str(GATEWAY_MARKER)]), Obj(LabelRecord()), Arr([Str(GATEWAY_ENTRYPOINT)]),
                   Str(T("image")), Str(CONTAINER_USER)];
    ConfigKeys();
    Found(CONFIG_KEYS, values, 0);
    Found(CONFIG_KEYS, values, 1);
    Found(CONFIG_KEYS, values, 2);
    Found(CONFIG_KEYS, values, 3);
    Found(CONFIG_KEYS, values, 4);
  }

  lemma {:induction false} HostValues(dropped: seq<Json>)
    ensures Get(HostRecord(dropped), T("CapDrop")) == Some(Arr(dropped))
    ensures Get(HostRecord(dropped), T("SecurityOpt")) == Some(Arr([Str(T("no-new-privileges"))]))
    ensures Get(HostRecord(dropped), T("ReadonlyRootfs")) == Some(Bool(true))
    ensures Get(HostRecord(dropped), T("Privileged")) == Some(Bool(false))
    ensures GetOr(HostRecord(dropped), T("Binds"), T("binds")) == Null
  {
    var values := [Arr(dropped), Arr([Str(T("no-new-privileges"))]), Bool(true), Bool(false)];
    HostKeys();
    Found(HOST_KEYS, values, 0);
    Found(HOST_KEYS, values, 1);
    Found(HOST_KEYS, values, 2);
    Found(HOST_KEYS, values, 3);
    NotFound(HOST_KEYS, values, "Binds");
    NotFound(HOST_KEYS, values, "binds");
  }

  lemma {:induction false} NetworkValues()
    ensures Get(StateRecord(), T("Running")) == Some(Bool(true))
    ensures AttachmentFields(NetworksRecord(), T("inside")) == Some(AttachmentRecord())
    ensures Get(AttachmentRecord(), T("Aliases")) == Some(Arr([Str(GATEWAY_ALIAS)]))
    ensures Keys(NetworksRecord()) == {T("inside"), T("outside")}
  {
    NetworkKeys();
    Found(["Running"], [Bool(true)], 0);
    Found(["inside", "outside"], [Obj(AttachmentRecord()), Obj(AttachmentRecord())], 0);
    Found(["Aliases"], [Arr([Str(GATEWAY_ALIAS)])], 0);
    assert NetworksRecord()[0].key == T("inside") && NetworksRecord()[1].key == T("outside");
  }

  lemma {:induction false} MarkerIsAssignment()
    ensures Assignment(Str(GATEWAY_MARKER))
  {
    assert GATEWAY_MARKER[24] == 61;
  }

  lemma {:induction false} CapabilitiesFit()
    ensures Fits(Arr([Str(T("ALL")), Int(5)]), 71) && Fits(Str(T("gateway")), 71)
    ensures Fits(Arr([Str(T("ALL"))]), 71) && Fits(Int(5), 71)
  {
    LabelTextsFit();
    FitsWithin(Str(T("gateway")), 68, 71);
    VisibleShown("ALL", 3);
    FiveFits();
    TwoFit(Str(T("ALL")), Int(5), 8);
  }

  lemma {:induction false} FiveFits()
    ensures Fits(Int(5), 1)
  {
    assert Digits(5) == [53];
  }

  lemma {:induction false} TwoFit(a: Json, b: Json, bound: nat)
    requires bound <= 8 && Fits(a, bound) && Fits(b, 1)
    ensures Fits(Arr([a]), 71) && Fits(Arr([a, b]), 71)
  {
    FitsWithin(b, 1, 8);
    ListFits([a], 8);
    ListFits([a, b], 8);
  }

  lemma {:induction false} LabelValues()
    ensures LabelsAre(LabelRecord(), SAMPLE_NAMES.labels, T("gateway"))
  {
    LabelKeys();
    var values := [Str(T("owner")), Str(T("session")), Str(T("gateway"))];
    Found(LABEL_KEYS, values, 0);
    Found(LABEL_KEYS, values, 1);
    Found(LABEL_KEYS, values, 2);
  }
}
