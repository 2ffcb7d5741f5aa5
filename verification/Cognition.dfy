// Counterfactual branches and deterministic local cognition
// (core/action.py ThoughtBranch, core/cognition.py).
module Cognition {
  import opened Prelude
  import opened Values
  import opened Limits
  import opened Workspace

  datatype ThoughtBranch = ThoughtBranch(
    branchId: Text,
    stance: Text,
    content: Payload,
    expectedConsequences: seq<Payload>,
    uncertainty: real,
    sourceIds: seq<Text>,
    cognitionMode: Text,
    algorithmVersion: Text,
    configVersion: Text)

  datatype CognitionAlternative = CognitionAlternative(
    branchId: Text, stance: Text, content: Payload, expectedConsequences: seq<Payload>)

  datatype CognitionResult = CognitionResult(
    algorithmVersion: Text,
    configVersion: Text,
    sourceIds: seq<Text>,
    inputFingerprint: Text,
    alternatives: seq<CognitionAlternative>,
    uncertainty: real,
    reflection: Payload)

  function BranchKey(b: ThoughtBranch): Text {
    b.branchId
  }

  predicate ValidBranch(b: ThoughtBranch) {
    && !Empty(b.branchId) && !Empty(b.stance) && !Empty(b.cognitionMode)
    && !Empty(b.algorithmVersion) && !Empty(b.configVersion)
    && 0.0 <= b.uncertainty <= 1.0 && SourceIdsOk(b.sourceIds)
  }

  predicate AllObjects(items: seq<Json>) {
    forall i :: 0 <= i < |items| ==> items[i].Obj?
  }

  function Objects(items: seq<Json>): (r: seq<Payload>)
    requires AllObjects(items)
    ensures |r| == |items|
  {
    seq(|items|, i requires 0 <= i < |items| => items[i].fields)
  }

  function ObjectArray(items: seq<Payload>): (r: seq<Json>)
    ensures AllObjects(r) && Objects(r) == items
  {
    var r := seq(|items|, i requires 0 <= i < |items| => Obj(items[i]));
    assert Objects(r) == items;
    r
  }

  /* ---------------- simulation.created ---------------- */

  const DEFAULT_CONSEQUENCES: Json :=
    Arr([Obj(map[KIND := Str(COUNTERFACTUAL), REQUIRES_CONFIRMATION := Bool(true)])])

  // An optional string field with a default; None when it is not a string.
  function TextOr(p: Payload, key: Text, default: Text): Option<Text> {
    var j := GetOr(p, key, Str(default));
    if j.Str? && !Empty(j.t) then Some(j.t) else None
  }

  // _simulation_branch
  function SimulationBranch(p: Payload): (r: Result<ThoughtBranch>)
    ensures r.Ok? ==> ValidBranch(r.value)
  {
    var proposition := Get(p, PROPOSITION_ID);
    if !proposition.Str? || Blank(proposition.t) then Err(Invariant)
    else
      var consequences := GetOr(p, EXPECTED_CONSEQUENCES, DEFAULT_CONSEQUENCES);
      if !consequences.Arr? || !AllObjects(consequences.items) then Err(Invariant)
      else
        var branch := TextOr(p, BRANCH_ID, proposition.t);
        var stance := TextOr(p, STANCE, SIMULATE);
        var content := GetObj(p, CONTENT);
        var uncertainty := ToFloat(GetOr(p, UNCERTAINTY, Float(0.5)));
        var sources := GetOr(p, SOURCE_IDS, Arr([]));
        var mode := TextOr(p, COGNITION_MODE, EVENT_MODE);
        var algorithm := TextOr(p, ALGORITHM_VERSION, EVENT_V1);
        var config := TextOr(p, CONFIG_VERSION, EVENT_V1);
        if branch.None? || stance.None? || content.None? || uncertainty.None? || !IsTextArray(sources) ||
           mode.None? || algorithm.None? || config.None? then Err(Invariant)
        else
          var b := ThoughtBranch(branch.value, stance.value, content.value, Objects(consequences.items),
                                 uncertainty.value, Texts(sources), mode.value, algorithm.value, config.value);
          if ValidBranch(b) then Ok(b) else Err(Invariant)
  }

  /* ---------------- cognition.reflected ---------------- */

  function ParseAlternative(j: Json): (r: Option<CognitionAlternative>) {
    if !j.Obj? then None
    else
      var id := GetText(j.fields, BRANCH_ID);
      var stance := GetText(j.fields, STANCE);
      var content := GetObj(j.fields, CONTENT);
      var consequences := Get(j.fields, EXPECTED_CONSEQUENCES);
      if id.None? || stance.None? || content.None? || !consequences.Arr? || !AllObjects(consequences.items)
      then None
      else if stance.value !in {PROCEED, DEFER, SEEK_OBSERVATION} then None
      else Some(CognitionAlternative(id.value, stance.value, content.value, Objects(consequences.items)))
  }

  function ParseAlternatives(items: seq<Json>): Option<seq<CognitionAlternative>> {
    if items == [] then Some([])
    else
      var first := ParseAlternative(items[0]);
      var rest := ParseAlternatives(items[1..]);
      if first.None? || rest.None? then None else Some([first.value] + rest.value)
  }

  function AlternativeIds(items: seq<CognitionAlternative>): (r: seq<Text>)
    ensures |r| == |items| && forall i :: 0 <= i < |r| ==> r[i] == items[i].branchId
  {
    seq(|items|, i requires 0 <= i < |items| => items[i].branchId)
  }

  // cognition_result_from_payload
  function ParseReflection(p: Payload): (r: Option<CognitionResult>)
    ensures r.Some? ==> NoDuplicates(AlternativeIds(r.value.alternatives)) &&
                        0.0 <= r.value.uncertainty <= 1.0
  {
    var algorithm := Get(p, ALGORITHM_VERSION);
    var config := Get(p, CONFIG_VERSION);
    var sources := Get(p, SOURCE_IDS);
    var fingerprint := GetText(p, INPUT_FINGERPRINT);
    var raw := Get(p, ALTERNATIVES);
    var uncertainty := ToFloat(Get(p, UNCERTAINTY));
    var reflection := GetObj(p, REFLECTION);
    if GetOr(p, COGNITION_MODE, Str(LOCAL)) != Str(LOCAL) ||
       GetOr(p, PROVIDER_USED, Bool(false)) != Bool(false) ||
       GetOr(p, UNCERTAINTY_BASIS, Str(DETERMINISTIC_HEURISTIC)) != Str(DETERMINISTIC_HEURISTIC) ||
       GetOr(p, CALIBRATED, Bool(false)) != Bool(false) then None
    else if !algorithm.Str? || !config.Str? || !IsTextArray(sources) || fingerprint.None? || !raw.Arr? ||
            uncertainty.None? || !(0.0 <= uncertainty.value <= 1.0) || reflection.None? then None
    else
      var alternatives := ParseAlternatives(raw.items);
      if alternatives.None? || !NoDuplicates(AlternativeIds(alternatives.value)) then None
      else Some(CognitionResult(algorithm.t, config.t, Texts(sources), fingerprint.value,
                                alternatives.value, uncertainty.value, reflection.value))
  }

  function Branch(r: CognitionResult, a: CognitionAlternative): ThoughtBranch {
    ThoughtBranch(a.branchId, a.stance, a.content, a.expectedConsequences, r.uncertainty,
                  r.sourceIds, LOCAL, r.algorithmVersion, r.configVersion)
  }

  function Branches(r: CognitionResult): (b: seq<ThoughtBranch>)
    ensures |b| == |r.alternatives|
  {
    seq(|r.alternatives|, i requires 0 <= i < |r.alternatives| => Branch(r, r.alternatives[i]))
  }

  /* ---------------- LocalCognitionPort.reflect ---------------- */

  function ProjectedConsequence(stance: Text): Payload {
    map[KIND := Str(LOCAL), STANCE := Str(stance), REQUIRES_CONFIRMATION := Bool(true)]
  }

  // local-<fingerprint>-<stance>
  function LocalBranchId(fingerprint: Text, stance: Text): Text {
    Join(0, fingerprint, stance)
  }

  function Alternative(content: Payload, fingerprint: Text, stance: Text): CognitionAlternative {
    CognitionAlternative(LocalBranchId(fingerprint, stance), stance,
                         map[INPUT := Obj(content), POLICY := Str(stance)],
                         [ProjectedConsequence(stance)])
  }

  // The content fingerprint and the uncertainty derived from it are hashes of
  // the content, so they are parameters here.
  function Reflect(content: Payload, sources: set<Text>, fingerprint: Text, seed: nat): CognitionResult {
    CognitionResult(
      COGNITION_ALGORITHM, COGNITION_CONFIG, Sorted(sources), fingerprint,
      [Alternative(content, fingerprint, PROCEED),
       Alternative(content, fingerprint, DEFER),
       Alternative(content, fingerprint, SEEK_OBSERVATION)],
      0.25 + ((seed % 5000) as real) / 10000.0,
      map[SUMMARY := Str(COUNTERFACTUAL)])
  }

  function AlternativeJson(a: CognitionAlternative): Json {
    Obj(map[BRANCH_ID := Str(a.branchId), STANCE := Str(a.stance), CONTENT := Obj(a.content),
            EXPECTED_CONSEQUENCES := Arr(ObjectArray(a.expectedConsequences))])
  }

  function AlternativesJson(items: seq<CognitionAlternative>): seq<Json> {
    if items == [] then [] else [AlternativeJson(items[0])] + AlternativesJson(items[1..])
  }

  // result_payload
  function ResultPayload(r: CognitionResult): Payload {
    map[COGNITION_MODE := Str(LOCAL),
        PROVIDER_USED := Bool(false),
        ALGORITHM_VERSION := Str(r.algorithmVersion),
        CONFIG_VERSION := Str(r.configVersion),
        SOURCE_IDS := TextArray(r.sourceIds),
        INPUT_FINGERPRINT := Str(r.inputFingerprint),
        ALTERNATIVES := Arr(AlternativesJson(r.alternatives)),
        UNCERTAINTY := Float(r.uncertainty),
        UNCERTAINTY_BASIS := Str(DETERMINISTIC_HEURISTIC),
        CALIBRATED := Bool(false),
        REFLECTION := Obj(r.reflection)]
  }

  predicate ValidAlternative(a: CognitionAlternative) {
    !Empty(a.branchId) && a.stance in {PROCEED, DEFER, SEEK_OBSERVATION}
  }

  predicate ValidResult(r: CognitionResult) {
    && !Empty(r.inputFingerprint) && 0.0 <= r.uncertainty <= 1.0
    && NoDuplicates(AlternativeIds(r.alternatives))
    && forall i :: 0 <= i < |r.alternatives| ==> ValidAlternative(r.alternatives[i])
  }

  lemma AlternativeRoundTrip(a: CognitionAlternative)
    requires ValidAlternative(a)
    ensures ParseAlternative(AlternativeJson(a)) == Some(a)
  {
    var f := AlternativeJson(a).fields;
    assert GetText(f, BRANCH_ID) == Some(a.branchId) && GetText(f, STANCE) == Some(a.stance);
    assert GetObj(f, CONTENT) == Some(a.content);
  }

  lemma {:induction false} AlternativesRoundTrip(items: seq<CognitionAlternative>)
    requires forall i :: 0 <= i < |items| ==> ValidAlternative(items[i])
    ensures ParseAlternatives(AlternativesJson(items)) == Some(items)
  {
    if items != [] {
      AlternativeRoundTrip(items[0]);
      AlternativesRoundTrip(items[1..]);
      assert items == [items[0]] + items[1..];
    }
  }

  // A payload that carries the fields of r, whatever else it carries.
  predicate Carries(p: Payload, r: CognitionResult) {
    && HasField(p, COGNITION_MODE, Str(LOCAL)) && HasField(p, PROVIDER_USED, Bool(false))
    && HasField(p, UNCERTAINTY_BASIS, Str(DETERMINISTIC_HEURISTIC)) && HasField(p, CALIBRATED, Bool(false))
    && HasField(p, ALGORITHM_VERSION, Str(r.algorithmVersion))
    && HasField(p, CONFIG_VERSION, Str(r.configVersion))
    && HasField(p, SOURCE_IDS, TextArray(r.sourceIds))
    && HasField(p, INPUT_FINGERPRINT, Str(r.inputFingerprint))
    && HasField(p, ALTERNATIVES, Arr(AlternativesJson(r.alternatives)))
    && HasField(p, UNCERTAINTY, Float(r.uncertainty))
    && HasField(p, REFLECTION, Obj(r.reflection))
  }

  lemma CarriedReadsBack(p: Payload, r: CognitionResult)
    requires ValidResult(r) && Carries(p, r)
    ensures ParseReflection(p) == Some(r)
  {
    AlternativesRoundTrip(r.alternatives);
  }

  // What the engine appends after a reflection reads back as that reflection.
  lemma ReflectionRoundTrip(r: CognitionResult)
    requires ValidResult(r)
    ensures ParseReflection(ResultPayload(r)) == Some(r)
  {
    assert Carries(ResultPayload(r), r);
    CarriedReadsBack(ResultPayload(r), r);
  }

  lemma ReflectIsValid(content: Payload, sources: set<Text>, fingerprint: Text, seed: nat)
    requires !Empty(fingerprint)
    ensures ValidResult(Reflect(content, sources, fingerprint, seed))
  {
    var r := Reflect(content, sources, fingerprint, seed);
    assert NoDuplicates(AlternativeIds(r.alternatives)) by {
      assert r.alternatives[0].branchId != r.alternatives[1].branchId;
      assert r.alternatives[0].branchId != r.alternatives[2].branchId;
      assert r.alternatives[1].branchId != r.alternatives[2].branchId;
    }
  }

  // Local cognition puts the content forward under three policies, one branch
  // each, with a consequence to be confirmed, and is between a quarter and
  // three quarters uncertain.
  lemma ReflectSays(content: Payload, sources: set<Text>, fingerprint: Text, seed: nat)
    ensures var r := Reflect(content, sources, fingerprint, seed);
            && r.inputFingerprint == fingerprint && 0.25 <= r.uncertainty < 0.75
            && |r.alternatives| == 3
            && r.alternatives[0].stance == PROCEED && r.alternatives[1].stance == DEFER
            && r.alternatives[2].stance == SEEK_OBSERVATION
            && (forall i :: 0 <= i < 3 ==>
                  var a := r.alternatives[i];
                  && Get(a.content, INPUT) == Obj(content) && Get(a.content, POLICY) == Str(a.stance)
                  && |a.expectedConsequences| == 1
                  && Get(a.expectedConsequences[0], REQUIRES_CONFIRMATION) == Bool(true))
            && (forall t :: t in r.sourceIds <==> t in sources)
  {
  }
}
