/**
 The two independent validators of `network inspect` and `container inspect` output: the one the
 root-owned outer executor applies while it runs, and the one the coordinator re-applies later.

 `fold` is the case-folding of strings, which no result here depends on.
 */
module Inspect {
  import opened Wrappers
  import opened Utf8
  import opened CanonicalJson
  import opened CanonicalOrder

  function T(s: string): Text {
    seq(|s|, i requires 0 <= i < |s| => s[i] as int)
  }

  const MAX_INSPECT_BYTES := 64_000

  datatype Resource = Container | Network

  /** A resource of the lifecycle and the value of its `ai-review.kind` label. */
  datatype Target = Target(resource: Resource, name: Text, kind: Text)

  datatype Labels = Labels(owner: Text, session: Text)

  type Fields = seq<Member>

  // ---------------------------------------------------------------- dictionary access

  function Get(fields: Fields, key: Text): Option<Json> {
    var i := Index(fields, key);
    if i < |fields| then Some(fields[i].value) else None
  }

  /** The first of two spellings that holds a dictionary. */
  function DictField(fields: Fields, upper: Text, lower: Text): Option<Fields> {
    match Get(fields, upper)
    case Some(Obj(members)) => Some(members)
    case _ =>
      match Get(fields, lower)
      case Some(Obj(members)) => Some(members)
      case _ => None
  }

  /** The first of two spellings that is present. */
  function ValueField(fields: Fields, upper: Text, lower: Text): Option<Json> {
    if Get(fields, upper).Some? then Get(fields, upper) else Get(fields, lower)
  }

  /** `fields.get(upper, fields.get(lower))`, where absence is null. */
  function GetOr(fields: Fields, upper: Text, lower: Text): Json {
    match ValueField(fields, upper, lower)
    case Some(v) => v
    case None => Null
  }

  function StripSlashes(name: Text): Text {
    if name != [] && name[0] == 47 then StripSlashes(name[1..]) else name
  }

  predicate LabelsAre(labels: Fields, expected: Labels, kind: Text) {
    && Get(labels, T("ai-review.owner-sha256")) == Some(Str(expected.owner))
    && Get(labels, T("ai-review.session-sha256")) == Some(Str(expected.session))
    && Get(labels, T("ai-review.kind")) == Some(Str(kind))
  }

  /** One JSON list holding one dictionary. */
  function ParseOne(raw: Bytes): Option<Fields> {
    match Decode(raw)
    case None => None
    case Some(text) =>
      match Parse(text)
      case Some(Arr(items)) => if |items| == 1 && items[0].Obj? then Some(items[0].members) else None
      case _ => None
  }

  function CanonicalOne(fields: Fields): Option<Bytes> {
    CanonicalBytes(Arr([Obj(fields)]))
  }

  /** The coordinator's reader also bounds the bytes and canonicalizes at once. */
  function CheckerParseOne(raw: Bytes): Option<Fields> {
    if !(2 <= |raw| <= MAX_INSPECT_BYTES) then None
    else
      var fields := ParseOne(raw);
      if fields.Some? && CanonicalOne(fields.value).Some? then fields else None
  }

  // ---------------------------------------------------------------- networks

  function MemberName(attachment: Json): Option<Text> {
    if !attachment.Obj? then None
    else
      match GetOr(attachment.members, T("Name"), T("name"))
      case Str(name) => if name == [] then None else Some(name)
      case _ => None
  }

  /** The outer loop compares stripped names with the stripped names seen so far. */
  function OuterMembers(attachments: Fields, names: set<Text>): Option<set<Text>> {
    if attachments == [] then Some(names)
    else
      match MemberName(attachments[0].value)
      case None => None
      case Some(name) =>
        if StripSlashes(name) in names then None
        else OuterMembers(attachments[1..], names + {StripSlashes(name)})
  }

  /** The coordinator's loop compares the raw name with the stripped names seen so far. */
  function CheckerMembers(attachments: Fields, names: set<Text>): Option<set<Text>> {
    if attachments == [] then Some(names)
    else
      match MemberName(attachments[0].value)
      case None => None
      case Some(name) =>
        if name in names then None else CheckerMembers(attachments[1..], names + {StripSlashes(name)})
  }

  predicate NetworkFacts(
    fields: Fields, target: Target, internal: bool, gateway: Text, expected: Labels,
    members: Option<set<Text>>)
  {
    var labels := DictField(fields, T("Labels"), T("labels"));
    && labels.Some?
    && ValueField(fields, T("Name"), T("name")) == Some(Str(target.name))
    && ValueField(fields, T("Internal"), T("internal")) == Some(Bool(internal))
    && LabelsAre(labels.value, expected, target.kind)
    && members == Some({gateway})
  }

  function Attachments(fields: Fields): Option<Fields> {
    match ValueField(fields, T("Containers"), T("containers"))
    case Some(Obj(members)) => Some(members)
    case _ => None
  }

  function OuterNetworkMembers(fields: Fields): Option<set<Text>> {
    match Attachments(fields)
    case Some(attachments) => OuterMembers(attachments, {})
    case None => None
  }

  function CheckerNetworkMembers(fields: Fields): Option<set<Text>> {
    match Attachments(fields)
    case Some(attachments) => CheckerMembers(attachments, {})
    case None => None
  }

  /** The outer executor's view of one network; the canonical bytes when it accepts. */
  function OuterNetwork(
    raw: Bytes, target: Target, internal: bool, gateway: Text, expected: Labels): Option<Bytes>
  {
    match ParseOne(raw)
    case None => None
    case Some(fields) =>
      if NetworkFacts(fields, target, internal, gateway, expected, OuterNetworkMembers(fields))
      then CanonicalOne(fields) else None
  }

  /** The coordinator's view of one network. */
  function CheckerNetwork(
    raw: Bytes, target: Target, internal: bool, gateway: Text, expected: Labels): Option<Bytes>
  {
    match CheckerParseOne(raw)
    case None => None
    case Some(fields) =>
      if NetworkFacts(fields, target, internal, gateway, expected, CheckerNetworkMembers(fields))
      then CanonicalOne(fields) else None
  }

  // ---------------------------------------------------------------- the gateway

  const GATEWAY_ENTRYPOINT := T("/opt/ai-review/bin/egress-gateway")
  const GATEWAY_ALIAS := T("ai-review-egress-gateway")
  const CONTAINER_USER := T("65532:65532")
  const GATEWAY_MARKER := T("AI_REVIEW_EGRESS_GATEWAY=1")

  const FORBIDDEN_ENVIRONMENT: seq<string> := [
    "all_proxy", "aws_ca_bundle", "curl_ca_bundle", "http_proxy", "https_proxy", "ld_audit",
    "ld_library_path", "ld_preload", "netrc", "no_proxy", "openai_api_key", "openai_base_url",
    "pythonhome", "pythonpath", "requests_ca_bundle", "ssl_cert_dir", "ssl_cert_file"]

  datatype GatewayShape = GatewayShape(
    name: Text, image: Text, internalNetwork: Text, externalNetwork: Text, labels: Labels)

  function BeforeEquals(item: Text): Text {
    if item == [] || item[0] == 61 then [] else [item[0]] + BeforeEquals(item[1..])
  }

  predicate Assignment(item: Json) {
    item.Str? && 61 in item.text
  }

  /** The environment is a list of assignments, marks the gateway, and sets no forbidden name. */
  predicate EnvironmentOk(fold: Text -> Text, env: Json) {
    && env.Arr?
    && (forall i :: 0 <= i < |env.items| ==> Assignment(env.items[i]))
    && Str(GATEWAY_MARKER) in env.items
    && forall i, j :: 0 <= i < |env.items| && 0 <= j < |FORBIDDEN_ENVIRONMENT| ==>
         fold(BeforeEquals(env.items[i].text)) != T(FORBIDDEN_ENVIRONMENT[j])
  }

  /** `{item.casefold() for item in items}` of a list of strings. */
  function Folded(fold: Text -> Text, items: seq<Json>): Option<set<Text>> {
    if forall i :: 0 <= i < |items| ==> items[i].Str?
    then Some(set i | 0 <= i < |items| :: fold(items[i].text)) else None
  }

  /**
   Iterating a decoded value: a list gives its items, a dictionary its keys.  A string gives single
   characters, none of which folds to an option name, so it is refused here like every other value.
   */
  function Iterated(v: Json): Option<seq<Json>> {
    match v
    case Arr(items) => Some(items)
    case Obj(members) => Some(seq(|members|, i requires 0 <= i < |members| => Str(members[i].key)))
    case _ => None
  }

  predicate DropsAll(fold: Text -> Text, items: Option<seq<Json>>) {
    items.Some? && Folded(fold, items.value) == Some({T("all")})
  }

  predicate NoNewPrivileges(fold: Text -> Text, items: Option<seq<Json>>) {
    && items.Some? && Folded(fold, items.value).Some?
    && T("no-new-privileges") in Folded(fold, items.value).value
  }

  datatype Sections = Sections(config: Fields, host: Fields, state: Fields, networks: Fields, labels: Fields)

  function GatewaySections(fields: Fields): Option<Sections> {
    var config := DictField(fields, T("Config"), T("config"));
    var host := DictField(fields, T("HostConfig"), T("hostConfig"));
    var state := DictField(fields, T("State"), T("state"));
    var settings := DictField(fields, T("NetworkSettings"), T("NetworkSettings"));
    if config.None? || host.None? || state.None? || settings.None? then None
    else
      var networks := DictField(settings.value, T("Networks"), T("networks"));
      var labels := DictField(config.value, T("Labels"), T("labels"));
      if networks.None? || labels.None? then None
      else Some(Sections(config.value, host.value, state.value, networks.value, labels.value))
  }

  function Keys(fields: Fields): set<Text> {
    set i | 0 <= i < |fields| :: fields[i].key
  }

  /** The checks both validators spell the same way. */
  predicate SharedGatewayFacts(fold: Text -> Text, fields: Fields, s: Sections, shape: GatewayShape) {
    var name := ValueField(fields, T("Name"), T("name"));
    var env := ValueField(s.config, T("Env"), T("env"));
    var binds := GetOr(s.host, T("Binds"), T("binds"));
    && name.Some? && name.value.Str? && StripSlashes(name.value.text) == shape.name
    && ValueField(s.config, T("Image"), T("image")) == Some(Str(shape.image))
    && ValueField(s.config, T("Entrypoint"), T("entrypoint")) == Some(Arr([Str(GATEWAY_ENTRYPOINT)]))
    && ValueField(s.config, T("User"), T("user")) == Some(Str(CONTAINER_USER))
    && ValueField(fields, T("Mounts"), T("mounts")) == Some(Arr([]))
    && (binds == Null || binds == Arr([]))
    && Keys(s.networks) == {shape.internalNetwork, shape.externalNetwork}
    && env.Some? && EnvironmentOk(fold, env.value)
    && LabelsAre(s.labels, shape.labels, T("gateway"))
  }

  function AttachmentFields(networks: Fields, name: Text): Option<Fields> {
    match Get(networks, name)
    case Some(Obj(members)) => Some(members)
    case _ => None
  }

  predicate HasAlias(aliases: Json) {
    aliases.Arr? && Str(GATEWAY_ALIAS) in aliases.items
  }

  function Running(s: Sections): Option<Json> {
    ValueField(s.state, T("Running"), T("running"))
  }

  function OuterList(host: Fields, key: Text): Option<seq<Json>> {
    match Get(host, key)
    case Some(v) => Iterated(v)
    case None => Some([])
  }

  /** The outer executor reads one spelling of the host options and iterates what it finds. */
  predicate OuterGatewayFacts(fold: Text -> Text, s: Sections, shape: GatewayShape) {
    var attachment := AttachmentFields(s.networks, shape.internalNetwork);
    && attachment.Some?
    && Get(attachment.value, T("Aliases")).Some? && HasAlias(Get(attachment.value, T("Aliases")).value)
    && DropsAll(fold, OuterList(s.host, T("CapDrop")))
    && NoNewPrivileges(fold, OuterList(s.host, T("SecurityOpt")))
    && Get(s.host, T("ReadonlyRootfs")) == Some(Bool(true))
    && Get(s.host, T("Privileged")) == Some(Bool(false))
    && Running(s).Some? && Running(s).value.Bool?
  }

  function ListItems(v: Json): Option<seq<Json>> {
    if v.Arr? then Some(v.items) else None
  }

  /** The coordinator reads both spellings, insists on lists, and may insist on a running gateway. */
  predicate CheckerGatewayFacts(
    fold: Text -> Text, s: Sections, shape: GatewayShape, requireRunning: bool)
  {
    var attachment := AttachmentFields(s.networks, shape.internalNetwork);
    && attachment.Some?
    && HasAlias(GetOr(attachment.value, T("Aliases"), T("aliases")))
    && DropsAll(fold, ListItems(GetOr(s.host, T("CapDrop"), T("capDrop"))))
    && NoNewPrivileges(fold, ListItems(GetOr(s.host, T("SecurityOpt"), T("securityOpt"))))
    && GetOr(s.host, T("ReadonlyRootfs"), T("readOnly")) == Bool(true)
    && GetOr(s.host, T("Privileged"), T("privileged")) == Bool(false)
    && Running(s).Some? && Running(s).value.Bool?
    && (requireRunning ==> Running(s).value.b)
  }

  function OuterGateway(fold: Text -> Text, raw: Bytes, shape: GatewayShape): Option<Bytes> {
    match ParseOne(raw)
    case None => None
    case Some(fields) =>
      match GatewaySections(fields)
      case None => None
      case Some(s) =>
        if SharedGatewayFacts(fold, fields, s, shape) && OuterGatewayFacts(fold, s, shape)
        then CanonicalOne(fields) else None
  }

  function CheckerGateway(
    fold: Text -> Text, raw: Bytes, shape: GatewayShape, requireRunning: bool): Option<Bytes>
  {
    match CheckerParseOne(raw)
    case None => None
    case Some(fields) =>
      match GatewaySections(fields)
      case None => None
      case Some(s) =>
        if SharedGatewayFacts(fold, fields, s, shape) && CheckerGatewayFacts(fold, s, shape, requireRunning)
        then CanonicalOne(fields) else None
  }

  // ---------------------------------------------------------------- when the coordinator's validator crashes

  /** How a validator ends: with canonical bytes, with its own error, or with one nobody there catches. */
  datatype Reading = Accepted(canonical: Bytes) | Refused | Crashed

  /** The fields the gateway validator reads are all there, with the types it checks. */
  predicate FieldsReached(fields: Fields, s: Sections, shape: GatewayShape) {
    var env := ValueField(s.config, T("Env"), T("env"));
    && ValueField(fields, T("Name"), T("name")).Some? && ValueField(fields, T("Mounts"), T("mounts")).Some?
    && env.Some? && env.value.Arr?
    && (forall i :: 0 <= i < |env.value.items| ==> Assignment(env.value.items[i]))
    && ValueField(s.config, T("Entrypoint"), T("entrypoint")).Some?
    && ValueField(s.config, T("Image"), T("image")).Some? && ValueField(s.config, T("User"), T("user")).Some?
    && Running(s).Some? && Running(s).value.Bool?
    && GetOr(s.host, T("CapDrop"), T("capDrop")).Arr? && GetOr(s.host, T("SecurityOpt"), T("securityOpt")).Arr?
    && AttachmentFields(s.networks, shape.internalNetwork).Some?
  }

  /** Everything the validator compares before it folds the option items. */
  predicate OptionsReached(fields: Fields, s: Sections, shape: GatewayShape) {
    var name := GetOr(fields, T("Name"), T("name"));
    var binds := GetOr(s.host, T("Binds"), T("binds"));
    && name.Str? && StripSlashes(name.text) == shape.name
    && ValueField(s.config, T("Image"), T("image")) == Some(Str(shape.image))
    && ValueField(s.config, T("Entrypoint"), T("entrypoint")) == Some(Arr([Str(GATEWAY_ENTRYPOINT)]))
    && ValueField(s.config, T("User"), T("user")) == Some(Str(CONTAINER_USER))
    && ValueField(fields, T("Mounts"), T("mounts")) == Some(Arr([]))
    && (binds == Null || binds == Arr([]))
  }

  predicate AllStrings(v: Json) {
    v.Arr? && forall i :: 0 <= i < |v.items| ==> v.items[i].Str?
  }

  /** Neither the name nor an option item is tested for being a string before it is used as one. */
  predicate UsesNonString(fold: Text -> Text, fields: Fields, s: Sections, shape: GatewayShape) {
    var drops := GetOr(s.host, T("CapDrop"), T("capDrop"));
    var options := GetOr(s.host, T("SecurityOpt"), T("securityOpt"));
    || !GetOr(fields, T("Name"), T("name")).Str?
    || (OptionsReached(fields, s, shape)
        && (!AllStrings(drops) || (DropsAll(fold, ListItems(drops)) && !AllStrings(options))))
  }

  predicate GatewayCrashes(fold: Text -> Text, raw: Bytes, shape: GatewayShape) {
    match CheckerParseOne(raw)
    case None => false
    case Some(fields) =>
      match GatewaySections(fields)
      case None => false
      case Some(s) => FieldsReached(fields, s, shape) && UsesNonString(fold, fields, s, shape)
  }

  // ---------------------------------------------------------------- ownership before removal

  function OwnedLabels(fields: Fields, resource: Resource): Option<Fields> {
    match resource
    case Network => DictField(fields, T("Labels"), T("labels"))
    case Container =>
      match DictField(fields, T("Config"), T("config"))
      case Some(config) => DictField(config, T("Labels"), T("labels"))
      case None => None
  }

  predicate OwnedFacts(fields: Fields, target: Target, expected: Labels) {
    var name := ValueField(fields, T("Name"), T("name"));
    var labels := OwnedLabels(fields, target.resource);
    && labels.Some? && LabelsAre(labels.value, expected, target.kind)
    && name.Some? && name.value.Str? && StripSlashes(name.value.text) == target.name
  }

  predicate OuterOwned(raw: Bytes, target: Target, expected: Labels) {
    ParseOne(raw).Some? && OwnedFacts(ParseOne(raw).value, target, expected)
  }

  predicate CheckerOwned(raw: Bytes, target: Target, expected: Labels) {
    CheckerParseOne(raw).Some? && OwnedFacts(CheckerParseOne(raw).value, target, expected)
  }

  // ---------------------------------------------------------------- how the two relate

  lemma {:induction false} DecodeLength(bytes: Bytes)
    ensures Decode(bytes).Some? ==> |Decode(bytes).value| <= |bytes|
  {
    if bytes != [] && DecodeCode(bytes).Code? {
      DecodeLength(bytes[DecodeCode(bytes).length..]);
    }
  }

  /** Whatever parses as one inspection meets the coordinator's lower size bound. */
  lemma {:induction false} ParsedSize(raw: Bytes)
    requires ParseOne(raw).Some?
    ensures |raw| >= 2
  {
    DecodeLength(raw);
    var s := SkipSpace(Decode(raw).value);
    assert ParseValue(s).Done? && ParseValue(s).value.Arr? && ParseValue(s).value.items != [];
  }

  lemma {:induction false} StripTwice(name: Text)
    ensures StripSlashes(name) == [] || StripSlashes(name)[0] != 47
    ensures name != [] && name[0] != 47 ==> StripSlashes(name) == name
  {
    if name != [] && name[0] == 47 {
      StripTwice(name[1..]);
    }
  }

  /** Attachments the outer loop accepts, the coordinator's loop accepts with the same names. */
  lemma {:induction false} OuterMembersAccepted(attachments: Fields, names: set<Text>)
    requires forall n :: n in names ==> n == [] || n[0] != 47
    requires OuterMembers(attachments, names).Some?
    ensures CheckerMembers(attachments, names) == OuterMembers(attachments, names)
  {
    if attachments != [] {
      var name := MemberName(attachments[0].value).value;
      StripTwice(name);
      OuterMembersAccepted(attachments[1..], names + {StripSlashes(name)});
    }
  }

  /** The converse fails: a container attached once as `g` and once as `/g` passes the coordinator only. */
  lemma {:induction false} CheckerMembersAcceptMore() returns (attachments: Fields)
    ensures CheckerMembers(attachments, {}) == Some({[103]})
    ensures OuterMembers(attachments, {}).None?
  {
    var plain := Obj([Member(T("Name"), Str([103]))]);
    var slashed := Obj([Member(T("Name"), Str([47, 103]))]);
    attachments := [Member(T("a"), plain), Member(T("b"), slashed)];
    assert StripSlashes([47, 103]) == [103] by {
      assert [47, 103][1..] == [103];
    }
    assert MemberName(plain) == Some([103]) && MemberName(slashed) == Some([47, 103]);
    var rest := attachments[1..];
    assert rest[0].value == slashed && rest[1..] == [];
    assert {} + {[103]} == {[103]};
    assert CheckerMembers(rest, {[103]}) == CheckerMembers(rest[1..], {[103]} + {[103]});
    assert {[103]} + {[103]} == {[103]};
  }

  /** A network the outer executor accepts is accepted by the coordinator, with the same bytes. */
  lemma {:induction false} OuterNetworkAccepted(
    raw: Bytes, target: Target, internal: bool, gateway: Text, expected: Labels)
    requires OuterNetwork(raw, target, internal, gateway, expected).Some? && 2 <= |raw| <= MAX_INSPECT_BYTES
    ensures CheckerNetwork(raw, target, internal, gateway, expected)
         == OuterNetwork(raw, target, internal, gateway, expected)
  {
    var fields := ParseOne(raw).value;
    OuterMembersAccepted(Attachments(fields).value, {});
  }

  predicate ListOptions(s: Sections) {
    && Get(s.host, T("CapDrop")).Some? && Get(s.host, T("CapDrop")).value.Arr?
    && Get(s.host, T("SecurityOpt")).Some? && Get(s.host, T("SecurityOpt")).value.Arr?
  }

  /** What the coordinator demands of an outer-accepted gateway beyond the outer executor. */
  predicate ListsAndRunning(raw: Bytes, requireRunning: bool) {
    && ParseOne(raw).Some? && GatewaySections(ParseOne(raw).value).Some?
    && var s := GatewaySections(ParseOne(raw).value).value;
       ListOptions(s) && (requireRunning ==> Running(s) == Some(Bool(true)))
  }

  lemma {:induction false} DropsAllNeedsItems(fold: Text -> Text, items: Option<seq<Json>>)
    requires DropsAll(fold, items) || NoNewPrivileges(fold, items)
    ensures items.Some? && items.value != []
  {
    assert T("all") in {T("all")};
  }

  lemma {:induction false} OuterListsAsLists(fold: Text -> Text, host: Fields, upper: Text, lower: Text)
    requires OuterList(host, upper).Some? && OuterList(host, upper).value != []
    ensures Get(host, upper).Some? && GetOr(host, upper, lower) == Get(host, upper).value
    ensures Get(host, upper).value.Arr? ==>
              ListItems(GetOr(host, upper, lower)) == OuterList(host, upper)
    ensures !Get(host, upper).value.Arr? ==> ListItems(GetOr(host, upper, lower)).None?
  {
  }

  lemma {:induction false} OuterFactsAsChecker(
    fold: Text -> Text, s: Sections, shape: GatewayShape, requireRunning: bool)
    requires OuterGatewayFacts(fold, s, shape)
    ensures CheckerGatewayFacts(fold, s, shape, requireRunning)
       <==> ListOptions(s) && (requireRunning ==> Running(s) == Some(Bool(true)))
  {
    DropsAllNeedsItems(fold, OuterList(s.host, T("CapDrop")));
    DropsAllNeedsItems(fold, OuterList(s.host, T("SecurityOpt")));
    OuterListsAsLists(fold, s.host, T("CapDrop"), T("capDrop"));
    OuterListsAsLists(fold, s.host, T("SecurityOpt"), T("securityOpt"));
  }

  /** The coordinator accepts an outer-accepted gateway exactly when its option lists are JSON lists
      and, where it insists, the gateway is running. */
  lemma {:induction false} OuterGatewayAccepted(
    fold: Text -> Text, raw: Bytes, shape: GatewayShape, requireRunning: bool)
    requires OuterGateway(fold, raw, shape).Some? && 2 <= |raw| <= MAX_INSPECT_BYTES
    ensures CheckerGateway(fold, raw, shape, requireRunning).Some? <==> ListsAndRunning(raw, requireRunning)
    ensures CheckerGateway(fold, raw, shape, requireRunning).Some? ==>
              CheckerGateway(fold, raw, shape, requireRunning) == OuterGateway(fold, raw, shape)
  {
    OuterFactsAsChecker(fold, GatewaySections(ParseOne(raw).value).value, shape, requireRunning);
  }

  /** Ownership of an outer-accepted cleanup inspection is accepted exactly when it can be re-encoded. */
  lemma {:induction false} OuterOwnedAccepted(raw: Bytes, target: Target, expected: Labels)
    requires OuterOwned(raw, target, expected) && 2 <= |raw| <= MAX_INSPECT_BYTES
    ensures CheckerOwned(raw, target, expected) <==> CanonicalOne(ParseOne(raw).value).Some?
  {
  }
}
