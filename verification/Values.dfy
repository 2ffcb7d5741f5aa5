// JSON values, identifiers and the event envelope (core/events.py).
//
// Fixed strings of the source (field names, statuses, roles) are numbered
// words, so that two different constants are visibly different.  Any other
// string is Raw.  Strings the source builds from other strings, including
// every SHA-256 identifier, are Join terms: a free constructor is an
// injective function about which nothing else is known.
module Values {
  import opened Prelude

  datatype Text =
    | Word(n: nat)
    | Raw(chars: string)
    | Numeral(value: real) // a string that float() reads as a number
    | Join(tag: nat, left: Text, right: Text)

  datatype Json =
    | Null
    | Bool(b: bool)
    | Int(i: int)
    | Float(r: real)
    | Str(t: Text)
    | Arr(items: seq<Json>)
    | Obj(fields: Payload)

  type Payload = map<Text, Json>

  /* ---------------- strings ---------------- */

  // What `str.strip()` takes away.
  predicate IsSpace(c: char) {
    '\t' <= c <= '\r' || '\U{1C}' <= c <= ' ' || c == '\U{85}' || c == '\U{A0}' || c == '\U{1680}' ||
    '\U{2000}' <= c <= '\U{200A}' || c == '\U{2028}' || c == '\U{2029}' || c == '\U{202F}' || c == '\U{205F}' ||
    c == '\U{3000}'
  }

  // `not value.strip()`
  predicate Blank(t: Text) {
    t.Raw? && forall i :: 0 <= i < |t.chars| ==> IsSpace(t.chars[i])
  }

  predicate Empty(t: Text) {
    t.Raw? && t.chars == ""
  }

  predicate LongerThan(t: Text, bound: nat) {
    t.Raw? && |t.chars| > bound
  }

  predicate StringLe(a: string, b: string) {
    if a == "" then true
    else if b == "" then false
    else if a[0] != b[0] then a[0] < b[0]
    else StringLe(a[1..], b[1..])
  }

  // A total order on strings; the source uses Python's string order wherever
  // it sorts, and only the fact that the order is total matters.
  predicate Le(a: Text, b: Text) {
    match a
    case Word(n) => b.Word? ==> n <= b.n
    case Raw(s) => !b.Word? && (b.Raw? ==> StringLe(s, b.chars))
    case Numeral(v) => !b.Word? && !b.Raw? && (b.Numeral? ==> v <= b.value)
    case Join(tag, l, r) =>
      b.Join? && (tag < b.tag || (tag == b.tag &&
        ((l != b.left && Le(l, b.left)) || (l == b.left && Le(r, b.right)))))
  }

  lemma StringLeTotal(a: string, b: string)
    ensures StringLe(a, b) || StringLe(b, a)
    ensures StringLe(a, b) && StringLe(b, a) ==> a == b
  {
    if a != "" && b != "" && a[0] == b[0] {
      StringLeTotal(a[1..], b[1..]);
      assert a == [a[0]] + a[1..] && b == [b[0]] + b[1..];
    }
  }

  lemma StringLeTransitive(a: string, b: string, c: string)
    requires StringLe(a, b) && StringLe(b, c)
    ensures StringLe(a, c)
  {
    if a != "" && b != "" && c != "" && a[0] == b[0] == c[0] {
      StringLeTransitive(a[1..], b[1..], c[1..]);
    }
  }

  // Python's order on strings: a prefix comes first, and else the first
  // difference decides.
  lemma {:induction false} StringLeMeaning(a: string, b: string)
    ensures StringLe(a, b) <==>
            a <= b || exists k :: 0 <= k < |a| && k < |b| && a[..k] == b[..k] && a[k] < b[k]
  {
    if a != "" && b != "" {
      var x, y := a[1..], b[1..];
      if a[0] == b[0] {
        StringLeMeaning(x, y);
        assert x <= y <==> a <= b;
        if k :| 0 <= k < |x| && k < |y| && x[..k] == y[..k] && x[k] < y[k] {
          FrontOfRest(a, k);
          FrontOfRest(b, k);
          assert a[..k + 1] == b[..k + 1] && a[k + 1] < b[k + 1];
        }
        if k :| 0 <= k < |a| && k < |b| && a[..k] == b[..k] && a[k] < b[k] {
          FrontOfRest(a, k - 1);
          FrontOfRest(b, k - 1);
          assert x[..k - 1] == y[..k - 1] && x[k - 1] < y[k - 1];
        }
      } else if a[0] < b[0] {
        assert a[..0] == b[..0];
      } else {
        forall k | 0 < k < |a| && k < |b| ensures a[..k] != b[..k] {
          assert a[..k][0] == a[0] && b[..k][0] == b[0];
        }
      }
    }
  }

  lemma FrontOfRest(a: string, k: nat)
    requires k < |a| - 1
    ensures a[..k + 1] == [a[0]] + a[1..][..k] && a[1..][..k] == a[..k + 1][1..] && a[1..][k] == a[k + 1]
  {
  }

  lemma LeTotal(a: Text, b: Text)
    ensures Le(a, b) || Le(b, a)
    ensures Le(a, b) && Le(b, a) ==> a == b
  {
    if a.Raw? && b.Raw? {
      StringLeTotal(a.chars, b.chars);
    } else if a.Join? && b.Join? {
      LeTotal(a.left, b.left);
      LeTotal(a.right, b.right);
    }
  }

  lemma LeTransitive(a: Text, b: Text, c: Text)
    requires Le(a, b) && Le(b, c)
    ensures Le(a, c)
  {
    if a.Raw? && b.Raw? && c.Raw? {
      StringLeTransitive(a.chars, b.chars, c.chars);
    } else if a.Join? && b.Join? && c.Join? && a.tag == b.tag == c.tag {
      LeTotal(a.left, b.left);
      LeTotal(b.left, c.left);
      if Le(a.left, b.left) && Le(b.left, c.left) {
        LeTransitive(a.left, b.left, c.left);
      }
      if Le(a.right, b.right) && Le(b.right, c.right) {
        LeTransitive(a.right, b.right, c.right);
      }
    }
  }

  /* ---------------- sorting a set of strings ---------------- */

  ghost predicate IsLeast(m: Text, s: set<Text>) {
    m in s && forall x :: x in s ==> Le(m, x)
  }

  lemma LeastExists(s: set<Text>) returns (m: Text)
    requires s != {}
    ensures IsLeast(m, s)
  {
    m :| m in s;
    LeTotal(m, m);
    if s - {m} != {} {
      var rest := LeastExists(s - {m});
      LeTotal(m, rest);
      var smaller := if Le(m, rest) then m else rest;
      forall y | y in s ensures Le(smaller, y) {
        if y != m {
          assert y in s - {m};
          if smaller == m {
            LeTransitive(m, rest, y);
          }
        }
      }
      m := smaller;
    } else {
      forall y | y in s ensures y == m {
        assert y == m || y in s - {m};
      }
    }
  }

  lemma LeastUnique(s: set<Text>)
    ensures forall a, b :: IsLeast(a, s) && IsLeast(b, s) ==> a == b
  {
    forall a, b | IsLeast(a, s) && IsLeast(b, s) ensures a == b {
      LeTotal(a, b);
    }
  }

  function Least(s: set<Text>): (m: Text)
    requires s != {}
    ensures IsLeast(m, s)
  {
    assert exists m :: IsLeast(m, s) by { var m := LeastExists(s); }
    LeastUnique(s);
    assert forall a :: IsLeast(a, s) <==> a in s && forall x :: x in s ==> Le(a, x);
    var m :| m in s && forall x :: x in s ==> Le(m, x);
    m
  }

  // Python's sorted(set(...)).
  function Sorted(s: set<Text>): (r: seq<Text>)
    ensures |r| == |s|
    ensures forall x :: x in r <==> x in s
    ensures NoDuplicates(r)
  {
    if s == {} then []
    else
      var m := Least(s);
      [m] + Sorted(s - {m})
  }

  lemma {:induction false} SortedIsOrdered(s: set<Text>, i: nat, j: nat)
    requires i < j < |s|
    ensures Le(Sorted(s)[i], Sorted(s)[j])
  {
    var m := Least(s);
    var rest := Sorted(s - {m});
    assert Sorted(s) == [m] + rest;
    if i == 0 {
      assert rest[j - 1] in rest;
    } else {
      SortedIsOrdered(s - {m}, i - 1, j - 1);
    }
  }

  /* ---------------- reading JSON ---------------- */

  predicate HasField(p: Payload, key: Text, value: Json) {
    key in p && p[key] == value
  }

  // payload.get(key): a missing field reads as null.
  function Get(p: Payload, key: Text): Json {
    if key in p then p[key] else Null
  }

  function GetOr(p: Payload, key: Text, default: Json): Json {
    if key in p then p[key] else default
  }

  // float(value); None where Python raises.
  function ToFloat(j: Json): Option<real> {
    match j
    case Bool(b) => Some(if b then 1.0 else 0.0)
    case Int(i) => Some(i as real)
    case Float(r) => Some(r)
    case Str(t) => if t.Numeral? then Some(t.value) else None
    case _ => None
  }

  // int(value): truncation toward zero; None where Python raises.
  function ToInt(j: Json): Option<int> {
    match j
    case Bool(b) => Some(if b then 1 else 0)
    case Int(i) => Some(i)
    case Float(r) => Some(Truncated(r))
    case Str(t) => if t.Numeral? && t.value == t.value.Floor as real then Some(t.value.Floor) else None
    case _ => None
  }

  function Truncated(r: real): int {
    if r >= 0.0 then r.Floor else -((-r).Floor)
  }

  // isinstance(value, (int, float)) and not isinstance(value, bool)
  predicate IsNumber(j: Json) {
    j.Int? || j.Float?
  }

  function Number(j: Json): real
    requires IsNumber(j)
  {
    if j.Int? then j.i as real else j.r
  }

  // An array of strings, as a strict tuple[str, ...] field accepts it.
  predicate IsTextArray(j: Json) {
    j.Arr? && forall i :: 0 <= i < |j.items| ==> j.items[i].Str?
  }

  function Texts(j: Json): (r: seq<Text>)
    requires IsTextArray(j)
    ensures |r| == |j.items| && forall i :: 0 <= i < |r| ==> j.items[i] == Str(r[i])
  {
    seq(|j.items|, i requires 0 <= i < |j.items| => j.items[i].t)
  }

  function TextArray(items: seq<Text>): (j: Json)
    ensures IsTextArray(j) && Texts(j) == items
  {
    var j := Arr(seq(|items|, i requires 0 <= i < |items| => Str(items[i])));
    assert Texts(j) == items;
    j
  }

  // A required JSON object field.
  function GetObj(p: Payload, key: Text): Option<Payload> {
    if key in p && p[key].Obj? then Some(p[key].fields) else None
  }

  // A required non-empty string field.
  function GetText(p: Payload, key: Text): Option<Text> {
    if key in p && p[key].Str? && !Empty(p[key].t) then Some(p[key].t) else None
  }

  // An optional string field: absent or null, or a string.
  predicate OptionalText(j: Json) {
    j.Null? || j.Str?
  }

  function AsOption(j: Json): Option<Text>
    requires OptionalText(j)
  {
    if j.Null? then None else Some(j.t)
  }

  function FromOption(t: Option<Text>): Json {
    if t.None? then Null else Str(t.value)
  }

  /* ---------------- events ---------------- */

  // The sixteen Hermes hooks (protocol/models.py).
  datatype Hook =
    | OnSessionStart | OnSessionEnd | OnSessionFinalize | OnSessionReset
    | PreLlmCall | PostLlmCall | PreApiRequest | PostApiRequest | ApiRequestError
    | PreToolCall | PostToolCall | PreApprovalRequest | PostApprovalResponse
    | SubagentStart | SubagentStop | PreVerify

  // The identifiers that a hook's context carries; absent and null are both
  // None, and a digest stands for those that are only fingerprinted.
  datatype Context = Context(
    sessionId: Option<Text>,
    turnId: Option<Text>,
    apiRequestId: Option<Text>,
    toolCallId: Option<Text>,
    childSessionId: Option<Text>,
    others: Text)

  // What the event envelope demands of a provenance identifier
  // (core/events.py, _validate_optional_provenance).
  predicate ProvenanceOk(id: Option<Text>) {
    id.Some? ==> !Blank(id.value)
  }

  // The identifiers of a context that go into the envelope.
  predicate ContextOk(c: Context) {
    ProvenanceOk(c.sessionId) && ProvenanceOk(c.turnId) && ProvenanceOk(c.apiRequestId)
  }

  // Event types.  The reducer interprets the named ones; it only counts the
  // observer, attributed, sampled and other types.
  datatype EventType =
    | BrainCreated | IdentityNamed | ActorRegistered | ProvenanceAuthorized
    | PersonalityRevised | ClockTick | CapabilitiesReported
    | SemanticGap | TraceGap
    | EnergyRequested | EnergyAssessed | EnergyAssessmentFailed
    | ActionProposed | ActionPrepared | ActionBlocked | ActionDispatched
    | ActionReceipt | ActionReconstructed
    | ObservationRecorded | BeliefUpdated | SimulationCreated | IdealUpdated
    | MemoryRecorded | WorkspaceBroadcast | CognitionReflected
    | RuntimeFailed | RuntimeRecovered
    | HookObserved(hook: Hook) | AttributedTo(hook: Hook) | ControlSampled
    | OtherType(name: string)

  datatype Event = Event(
    kind: EventType,
    eventId: Text,
    brainId: Text,
    sequence: Option<nat>,
    actorId: Text,
    adapterId: Option<Text>,
    actionId: Option<Text>,
    payload: Payload)

  /* ---------------- the fixed strings ---------------- */

  const ACTION_ID := Word(0)
  const INTENT := Word(1)
  const BRANCH_ID := Word(2)
  const STATUS := Word(3)
  const SOURCE_STATUS := Word(4)
  const SOURCE_ERROR_TYPE := Word(5)
  const LATE := Word(6)
  const EFFECT_EVIDENCE := Word(7)
  const KIND := Word(8)
  const OBSERVATION_IDS := Word(9)
  const OBSERVATIONS := Word(10)
  const PROPOSITION_ID := Word(11)
  const CONTENT := Word(12)
  const CONFIDENCE := Word(13)
  const FAILURE_CODE := Word(14)
  const REASSESSMENT_REASON := Word(15)
  const REPLACES_EVENT_ID := Word(16)
  const NAME := Word(17)
  const ACTOR_ID := Word(18)
  const ADAPTER_ID := Word(19)
  const DISPLAY_NAME := Word(20)
  const PARENT_ACTOR_ID := Word(21)
  const ATTRIBUTES := Word(22)
  const LAYER := Word(23)
  const VALUES := Word(24)
  const ELAPSED_SECONDS := Word(25)
  const CAPABILITIES := Word(26)
  const CYCLE := Word(27)
  const CANDIDATES := Word(28)
  const CANDIDATE_ID := Word(29)
  const SPECIALIST := Word(30)
  const SCORE := Word(31)
  const SOURCE_IDS := Word(32)
  const MEMORY_ID := Word(33)
  const SALIENCE := Word(34)
  const ERROR_TYPE := Word(35)
  const MESSAGE := Word(36)
  const PHASE := Word(37)
  const EXPECTED_CONSEQUENCES := Word(38)
  const STANCE := Word(39)
  const UNCERTAINTY := Word(40)
  const COGNITION_MODE := Word(41)
  const PROVIDER_USED := Word(42)
  const ALGORITHM_VERSION := Word(43)
  const CONFIG_VERSION := Word(44)
  const INPUT_FINGERPRINT := Word(45)
  const ALTERNATIVES := Word(46)
  const REFLECTION := Word(47)
  const ASSESSMENT_SOURCE := Word(48)
  const ASSESSMENT_SUMMARY := Word(49)
  const PROVENANCE := Word(50)
  const EVIDENCE_BASIS := Word(51)
  const UNKNOWN_DIMENSIONS := Word(52)
  const DEFICITS := Word(53)
  const URGENCY := Word(54)
  const VALENCE := Word(55)
  const AROUSAL := Word(56)
  const CONTROL := Word(57)
  const RESOURCES := Word(58)
  const COST := Word(59)
  const PERSONALITY_RELEVANCE := Word(60)
  const ASSESSMENT := Word(61)
  const REASON := Word(62)
  const BROADCAST := Word(63)
  const POLICY := Word(64)
  const INPUT := Word(65)
  const EXECUTION_CONFIRMED := Word(66)
  const CAPTURE_SEQ := Word(68)
  const RESULT_SHA256 := Word(70)
  const TOOL_NAME := Word(71)
  const ARGS_SHA256 := Word(72)
  const RAW_EVENT_ID := Word(73)
  const HOOK := Word(74)
  const REQUIRES_CONFIRMATION := Word(75)
  const CONFLICTING_PROPOSITION_IDS := Word(76)
  const ACTIVATION := Word(77)
  const ACTION_IDS := Word(78)
  const PRIOR_BROADCAST_IDS := Word(79)
  const UNMATCHED_NARRATIVE_KEYS := Word(80)
  const UNCERTAINTY_BASIS := Word(81)
  const CALIBRATED := Word(82)
  const SUMMARY := Word(83)

  const SUCCESS := Word(100)
  const FAILURE := Word(101)
  const UNKNOWN := Word(102)
  const OK := Word(103)
  const ERROR := Word(104)
  const TIMEOUT := Word(105)
  const CANCELLED := Word(106)
  const BLOCKED := Word(107)
  const THREAD_MISSING_RESULT := Word(108)
  const LINKED_OBSERVATION := Word(109)
  const LEGACY_NEUTRAL_DEFAULT := Word(110)
  const ENERGY_MIGRATION_ADAPTER := Word(111)
  const TRAITS := Word(112)
  const ADAPTATIONS := Word(113)
  const NARRATIVE_IDEAL := Word(114)
  const SELF := Word(115)
  const HUMAN := Word(116)
  const EXTERNAL_AGENT := Word(117)
  const TOOL_ADAPTER := Word(118)
  const SYSTEM := Word(119)
  const DRIVES := Word(120)
  const INCOMPLETE_ACTION := Word(121)
  const MEMORY := Word(122)
  const PREDICTION_ERROR := Word(123)
  const SELF_WORLD_CONFLICT := Word(124)
  const LOCAL := Word(125)
  const PROCEED := Word(126)
  const DEFER := Word(127)
  const SEEK_OBSERVATION := Word(128)
  const DETERMINISTIC_HEURISTIC := Word(129)
  const SIMULATE := Word(130)
  const EVENT_MODE := Word(131)
  const EVENT_V1 := Word(132)
  const COGNITION_ALGORITHM := Word(133)
  const COGNITION_CONFIG := Word(134)
  const SEMANTIC_V1 := Word(135)
  const COUNTERFACTUAL := Word(136)
}
