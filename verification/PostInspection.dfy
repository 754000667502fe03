/**
 The inspection of the gateway after the broker: exactly when reading it crashes the coordinator's exit.

 The validator uses the name and the option items as strings without testing that they are; its error
 is not the one the exit catches.
 */
module PostInspection {
  import opened Wrappers
  import opened Utf8
  import opened CanonicalJson
  import opened CanonicalOrder
  import opened Inspect
  import opened Lifecycle
  import opened EgressSession
  import opened SampleGateway

  lemma {:induction false} OptionsNotAccepted(fold: Text -> Text, v: Json)
    requires v.Arr? && !AllStrings(v)
    ensures !DropsAll(fold, ListItems(v)) && !NoNewPrivileges(fold, ListItems(v))
  {
  }

  lemma {:induction false} CrashIsNotAccepted(
    fold: Text -> Text, fields: Fields, s: Sections, shape: GatewayShape, requireRunning: bool)
    requires FieldsReached(fields, s, shape) && UsesNonString(fold, fields, s, shape)
    ensures !SharedGatewayFacts(fold, fields, s, shape) || !CheckerGatewayFacts(fold, s, shape, requireRunning)
  {
    var drops := GetOr(s.host, T("CapDrop"), T("capDrop"));
    var options := GetOr(s.host, T("SecurityOpt"), T("securityOpt"));
    if GetOr(fields, T("Name"), T("name")).Str? {
      OptionsNotAccepted(fold, if AllStrings(drops) then options else drops);
    }
  }

  /** Accepting and crashing exclude each other, so the three readings are exact. */
  lemma {:induction false} ReadingIsExact(fold: Text -> Text, n: Names, raw: Bytes)
    ensures var reading := CheckerView(fold, n).Read(raw, false);
            && (reading == Crashed <==> GatewayCrashes(fold, raw, n.Shape()))
            && (reading.Accepted? <==> CheckerGateway(fold, raw, n.Shape(), false).Some?)
            && OuterView(fold, n).Read(raw, false) != Crashed
  {
    if GatewayCrashes(fold, raw, n.Shape()) {
      var fields := CheckerParseOne(raw).value;
      CrashIsNotAccepted(fold, fields, GatewaySections(fields).value, n.Shape(), false);
    }
  }

  /**
   An open session's exit lets the crash escape exactly when everything before the gateway is as
   attested and the gateway's name, once reached, or an option item, once reached, is no string.
   */
  lemma {:induction false} EscapesExactlyOnNonStrings(fold: Text -> Text, session: Session)
    requires session.view == CheckerView(fold, session.names)
    requires session.Valid() && session.entered && !session.closed
    ensures var script, start := session.runtime.script, |session.runtime.trace|;
            var view, n, b := session.view, session.names, session.boundary.value;
            session.ExitCrashes() <==>
              && ExitedZero(session.post) && ThreeSucceed(view, script, start)
              && NetworksSeen(view, n, Output(script(start)), Output(script(start + 1)))
                 == Some((b.internal, b.external))
              && GatewayCrashes(fold, Output(script(start + 2)), n.Shape())
  {
    var start := |session.runtime.trace|;
    ReadingIsExact(fold, session.names, Output(session.runtime.script(start + 2)));
  }

  // ---------------------------------------------------------------- two inspections that crash it

  lemma {:induction false} SampleReached(name: Json, dropped: seq<Json>)
    ensures var fields := GatewayRecord(name, dropped);
            var s := SampleSections(dropped);
            && GatewaySections(fields) == Some(s) && FieldsReached(fields, s, SAMPLE_NAMES.Shape())
            && (name == Str(T("gateway")) ==> OptionsReached(fields, s, SAMPLE_NAMES.Shape()))
  {
    TopValues(name, dropped);
    TopFields(name, dropped);
    ConfigValues();
    HostValues(dropped);
    NetworkValues();
    MarkerIsAssignment();
    StripTwice(T("gateway"));
  }

  /** A gateway as it should be, except for a number among its dropped capabilities. */
  lemma {:induction false} NumberAmongCapabilitiesCrashes(fold: Text -> Text) returns (raw: Bytes)
    ensures CheckerView(fold, SAMPLE_NAMES).Read(raw, false) == Crashed
    ensures CheckerParseOne(raw) == Some(GatewayRecord(Str(T("gateway")), [Str(T("ALL")), Int(5)]))
  {
    var name, dropped := Str(T("gateway")), [Str(T("ALL")), Int(5)];
    CapabilitiesFit();
    raw := RecordRead(name, dropped);
    SampleReached(name, dropped);
    HostValues(dropped);
    ReadingIsExact(fold, SAMPLE_NAMES, raw);
    assert !dropped[1].Str?;
  }

  /** A gateway whose name is a number. */
  lemma {:induction false} NumberAsNameCrashes(fold: Text -> Text) returns (raw: Bytes)
    ensures CheckerView(fold, SAMPLE_NAMES).Read(raw, false) == Crashed
    ensures CheckerParseOne(raw) == Some(GatewayRecord(Int(5), [Str(T("ALL"))]))
  {
    var dropped := [Str(T("ALL"))];
    CapabilitiesFit();
    raw := RecordRead(Int(5), dropped);
    SampleReached(Int(5), dropped);
    TopFields(Int(5), dropped);
    ReadingIsExact(fold, SAMPLE_NAMES, raw);
  }

  // ---------------------------------------------------------------- without the number it is accepted

  /** The case folding of the three strings the sample's options and environment hold. */
  predicate FoldsAscii(fold: Text -> Text) {
    && fold(T("ALL")) == T("all") && fold(T("no-new-privileges")) == T("no-new-privileges")
    && fold(T("AI_REVIEW_EGRESS_GATEWAY")) == T("ai_review_egress_gateway")
  }

  lemma {:induction false} BeforeSign(name: Text, rest: Text)
    requires 61 !in name
    ensures BeforeEquals(name + [61] + rest) == name
  {
    if name != [] {
      assert (name + [61] + rest)[1..] == name[1..] + [61] + rest;
      BeforeSign(name[1..], rest);
    }
  }

  lemma {:induction false} MarkerName()
    ensures BeforeEquals(GATEWAY_MARKER) == T("AI_REVIEW_EGRESS_GATEWAY")
  {
    var name := T("AI_REVIEW_EGRESS_GATEWAY");
    assert GATEWAY_MARKER == name + [61] + T("1");
    BeforeSign(name, T("1"));
  }

  lemma {:induction false} ForbiddenAreShorter()
    ensures forall j :: 0 <= j < |FORBIDDEN_ENVIRONMENT| ==> |T(FORBIDDEN_ENVIRONMENT[j])| < 24
  {
  }

  lemma {:induction false} SampleEnvironment(fold: Text -> Text)
    requires FoldsAscii(fold)
    ensures EnvironmentOk(fold, Arr([Str(GATEWAY_MARKER)]))
  {
    MarkerIsAssignment();
    MarkerName();
    ForbiddenAreShorter();
    assert |T("ai_review_egress_gateway")| == 24;
  }

  /** The same gateway with nothing but strings is accepted. */
  lemma {:induction false} StringsAreAccepted(fold: Text -> Text) returns (raw: Bytes)
    requires FoldsAscii(fold)
    ensures CheckerView(fold, SAMPLE_NAMES).Read(raw, false).Accepted?
    ensures CheckerParseOne(raw) == Some(GatewayRecord(Str(T("gateway")), [Str(T("ALL"))]))
  {
    var name, dropped := Str(T("gateway")), [Str(T("ALL"))];
    CapabilitiesFit();
    raw := RecordRead(name, dropped);
    SampleReached(name, dropped);
    SampleFacts(fold);
    ReadingIsExact(fold, SAMPLE_NAMES, raw);
  }

  lemma {:induction false} FoldedSingle(fold: Text -> Text, text: Text)
    ensures Folded(fold, [Str(text)]) == Some({fold(text)})
  {
    var items := [Str(text)];
    var folded := Folded(fold, items).value;
    assert fold(items[0].text) in folded;
    assert folded == {fold(text)};
  }

  lemma {:induction false} SampleChecked(fold: Text -> Text)
    requires FoldsAscii(fold)
    ensures CheckerGatewayFacts(fold, SampleSections([Str(T("ALL"))]), SAMPLE_NAMES.Shape(), false)
  {
    HostValues([Str(T("ALL"))]);
    NetworkValues();
    FoldedSingle(fold, T("ALL"));
    FoldedSingle(fold, T("no-new-privileges"));
  }

  lemma {:induction false} SampleFacts(fold: Text -> Text)
    requires FoldsAscii(fold)
    ensures var fields, s := GatewayRecord(Str(T("gateway")), [Str(T("ALL"))]), SampleSections([Str(T("ALL"))]);
            && SharedGatewayFacts(fold, fields, s, SAMPLE_NAMES.Shape())
            && CheckerGatewayFacts(fold, s, SAMPLE_NAMES.Shape(), false)
  {
    var fields, s := GatewayRecord(Str(T("gateway")), [Str(T("ALL"))]), SampleSections([Str(T("ALL"))]);
    SampleReached(Str(T("gateway")), [Str(T("ALL"))]);
    SampleShared(fold, fields, s);
    SampleChecked(fold);
  }

  lemma {:induction false} SampleShared(fold: Text -> Text, fields: Fields, s: Sections)
    requires FoldsAscii(fold) && OptionsReached(fields, s, SAMPLE_NAMES.Shape())
    requires s.config == ConfigRecord() && s.networks == NetworksRecord() && s.labels == LabelRecord()
    requires ValueField(fields, T("Name"), T("name")).Some?
    ensures SharedGatewayFacts(fold, fields, s, SAMPLE_NAMES.Shape())
  {
    ConfigValues();
    NetworkValues();
    LabelValues();
    SampleEnvironment(fold);
  }
}
