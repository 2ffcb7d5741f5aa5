// The bounded global workspace: candidates, broadcast selection and memory
// records (core/workspace.py).
module Workspace {
  import opened Prelude
  import opened Values
  import opened Limits

  datatype Specialist = Drives | IncompleteAction | Memory | PredictionError | SelfWorldConflict

  datatype WorkspaceCandidate = WorkspaceCandidate(
    candidateId: Text,
    specialist: Specialist,
    score: real,
    content: Payload,
    sourceIds: seq<Text>,
    cycle: int)

  datatype WorkspaceState = WorkspaceState(
    capacity: nat, cycle: nat, broadcast: seq<WorkspaceCandidate>)

  datatype MemoryRecord = MemoryRecord(
    memoryId: Text, content: Payload, salience: real, sourceIds: seq<Text>)

  const DEFAULT_WORKSPACE_CAPACITY: nat := 4

  predicate SourceIdsOk(ids: seq<Text>) {
    |ids| <= MAX_SOURCE_IDS && forall i :: 0 <= i < |ids| ==> !Blank(ids[i])
  }

  predicate ValidCandidate(c: WorkspaceCandidate) {
    !Empty(c.candidateId) && 0.0 <= c.score <= 1.0 && SourceIdsOk(c.sourceIds) && c.cycle >= 1
  }

  predicate ValidWorkspace(w: WorkspaceState) {
    && 1 <= w.capacity <= MAX_WORKSPACE_BROADCAST
    && |w.broadcast| <= w.capacity
    && forall i :: 0 <= i < |w.broadcast| ==> ValidCandidate(w.broadcast[i])
  }

  predicate ValidMemory(m: MemoryRecord) {
    !Empty(m.memoryId) && 0.0 <= m.salience <= 1.0
  }

  function MemoryId(m: MemoryRecord): Text {
    m.memoryId
  }

  /* ---------------- ranking ---------------- */

  // Position of a specialist's name in string order.
  function NameRank(s: Specialist): nat {
    match s
    case Drives => 0
    case IncompleteAction => 1
    case Memory => 2
    case PredictionError => 3
    case SelfWorldConflict => 4
  }

  // (-score, specialist, candidate_id) compared as Python tuples.
  predicate RanksBefore(a: WorkspaceCandidate, b: WorkspaceCandidate) {
    a.score > b.score ||
    (a.score == b.score &&
      (NameRank(a.specialist) < NameRank(b.specialist) ||
        (NameRank(a.specialist) == NameRank(b.specialist) &&
          a.candidateId != b.candidateId && Le(a.candidateId, b.candidateId))))
  }

  lemma RanksAsymmetric(a: WorkspaceCandidate, b: WorkspaceCandidate)
    ensures !(RanksBefore(a, b) && RanksBefore(b, a))
  {
    LeTotal(a.candidateId, b.candidateId);
  }

  // Not ranking before is transitive: ranking is a weak order.
  lemma RanksWeakOrder(a: WorkspaceCandidate, b: WorkspaceCandidate, c: WorkspaceCandidate)
    requires !RanksBefore(b, a) && !RanksBefore(c, b)
    ensures !RanksBefore(c, a)
  {
    LeTotal(a.candidateId, b.candidateId);
    LeTotal(b.candidateId, c.candidateId);
    LeTotal(a.candidateId, c.candidateId);
    if Le(a.candidateId, b.candidateId) && Le(b.candidateId, c.candidateId) {
      LeTransitive(a.candidateId, b.candidateId, c.candidateId);
    }
  }

  /* ---------------- best candidate per content ---------------- */

  // best_by_content after one more candidate; the dictionary keeps the order
  // in which contents first appeared.
  function Absorb(best: seq<WorkspaceCandidate>, c: WorkspaceCandidate): seq<WorkspaceCandidate> {
    if best == [] then [c]
    else if best[0].content == c.content then
      (if RanksBefore(c, best[0]) then [c] + best[1..] else best)
    else [best[0]] + Absorb(best[1..], c)
  }

  function BestByContent(candidates: seq<WorkspaceCandidate>): seq<WorkspaceCandidate> {
    if candidates == [] then []
    else Absorb(BestByContent(candidates[..|candidates| - 1]), candidates[|candidates| - 1])
  }

  // Stable insertion into a ranked sequence.
  function Insert(ranked: seq<WorkspaceCandidate>, c: WorkspaceCandidate): seq<WorkspaceCandidate> {
    if ranked == [] then [c]
    else if RanksBefore(c, ranked[0]) then [c] + ranked
    else [ranked[0]] + Insert(ranked[1..], c)
  }

  // sorted(..., key=rank): stable.
  function Ranked(items: seq<WorkspaceCandidate>): (r: seq<WorkspaceCandidate>) {
    if items == [] then [] else Insert(Ranked(items[..|items| - 1]), items[|items| - 1])
  }

  function Take(items: seq<WorkspaceCandidate>, n: nat): seq<WorkspaceCandidate> {
    if |items| <= n then items else items[..n]
  }

  // choose_broadcast
  function Chosen(candidates: seq<WorkspaceCandidate>, capacity: nat): (r: seq<WorkspaceCandidate>)
    ensures |r| <= capacity
  {
    Take(Ranked(BestByContent(candidates)), capacity)
  }

  // The loop of choose_broadcast.
  method ChooseBroadcast(candidates: seq<WorkspaceCandidate>, capacity: nat)
    returns (selected: seq<WorkspaceCandidate>)
    ensures selected == Chosen(candidates, capacity)
    ensures forall i, j :: 0 <= i < j < |selected| ==> NoWorse(selected[i], selected[j])
  {
    BroadcastByScore(candidates, capacity);
    var best: seq<WorkspaceCandidate> := [];
    for i := 0 to |candidates|
      invariant best == BestByContent(candidates[..i])
    {
      assert candidates[..i + 1][..i] == candidates[..i];
      best := Absorb(best, candidates[i]);
    }
    assert candidates[..|candidates|] == candidates;
    selected := Take(Ranked(best), capacity);
  }

  /* ---------------- what selection means ---------------- */

  ghost predicate UniqueContent(items: seq<WorkspaceCandidate>) {
    forall i, j :: 0 <= i < j < |items| ==> items[i].content != items[j].content
  }

  ghost predicate InRankOrder(items: seq<WorkspaceCandidate>) {
    forall i, j :: 0 <= i < j < |items| ==> !RanksBefore(items[j], items[i])
  }

  ghost predicate HasContent(items: seq<WorkspaceCandidate>, content: Payload) {
    exists i :: 0 <= i < |items| && items[i].content == content
  }

  // r is from `all`, and nothing in `all` with its content ranks before it.
  ghost predicate BestOf(r: WorkspaceCandidate, all: seq<WorkspaceCandidate>) {
    r in all && forall c :: c in all && c.content == r.content ==> !RanksBefore(c, r)
  }

  lemma {:induction false} AbsorbMeaning(best: seq<WorkspaceCandidate>, c: WorkspaceCandidate)
    requires UniqueContent(best)
    ensures var r := Absorb(best, c);
            && UniqueContent(r)
            && (forall x :: x in r ==> x in best || x == c)
            && (forall x :: x in best && x.content != c.content ==> x in r)
            && (forall x :: x in r && x.content != c.content ==> x in best)
            && (forall x :: x in r && x.content == c.content ==>
                  !RanksBefore(c, x) && (forall y :: y in best && y.content == c.content ==> !RanksBefore(y, x)))
            && (exists x :: x in r && x.content == c.content)
  {
    var r := Absorb(best, c);
    RanksAsymmetric(c, c);
    if best == [] {
      assert r[0] == c;
    } else {
      assert best == [best[0]] + best[1..];
      if best[0].content == c.content {
        RanksAsymmetric(best[0], best[0]);
        RanksAsymmetric(c, best[0]);
        assert forall y :: y in best[1..] ==> y.content != c.content;
        assert r[0].content == c.content;
        assert r[1..] == best[1..];
        assert r == [r[0]] + best[1..];
      } else {
        AbsorbMeaning(best[1..], c);
        var rest := Absorb(best[1..], c);
        assert r == [best[0]] + rest;
        forall x | x in rest ensures x.content != best[0].content {
          assert x in best[1..] || x == c;
        }
      }
    }
  }

  // One bid for every content in `all`, the best there is for it.
  ghost predicate BestOfEach(best: seq<WorkspaceCandidate>, all: seq<WorkspaceCandidate>) {
    && UniqueContent(best)
    && (forall r :: r in best ==> BestOf(r, all))
    && (forall c :: c in all ==> exists r :: r in best && r.content == c.content)
  }

  lemma {:induction false} BestMeaning(candidates: seq<WorkspaceCandidate>)
    ensures BestOfEach(BestByContent(candidates), candidates)
  {
    if candidates != [] {
      var front, c := candidates[..|candidates| - 1], candidates[|candidates| - 1];
      assert candidates == front + [c];
      BestMeaning(front);
      AbsorbedBest(BestByContent(front), front, c);
      hide BestOfEach, Absorb;
    }
  }

  lemma AbsorbedBest(best: seq<WorkspaceCandidate>, front: seq<WorkspaceCandidate>, c: WorkspaceCandidate)
    requires BestOfEach(best, front)
    ensures BestOfEach(Absorb(best, c), front + [c])
  {
    hide Absorb, BestOf, UniqueContent;
    AbsorbUnique(best, c);
    forall r | r in Absorb(best, c) ensures BestOf(r, front + [c]) {
      AbsorbedIsBest(best, front, c, r);
    }
    forall d | d in front + [c] ensures exists r :: r in Absorb(best, c) && r.content == d.content {
      ContentSurvives(best, front, c, d);
    }
  }

  lemma AbsorbUnique(best: seq<WorkspaceCandidate>, c: WorkspaceCandidate)
    requires UniqueContent(best)
    ensures UniqueContent(Absorb(best, c))
  {
    AbsorbMeaning(best, c);
    hide *;
  }

  lemma ContentSurvives(best: seq<WorkspaceCandidate>, front: seq<WorkspaceCandidate>, c: WorkspaceCandidate,
                        d: WorkspaceCandidate)
    requires BestOfEach(best, front) && d in front + [c]
    ensures exists r :: r in Absorb(best, c) && r.content == d.content
  {
    AbsorbMeaning(best, c);
    if d.content != c.content {
      assert d in front;
      var r :| r in best && r.content == d.content;
      assert r in Absorb(best, c);
    }
  }

  lemma AbsorbedIsBest(best: seq<WorkspaceCandidate>, front: seq<WorkspaceCandidate>, c: WorkspaceCandidate,
                       r: WorkspaceCandidate)
    requires BestOfEach(best, front) && r in Absorb(best, c)
    ensures BestOf(r, front + [c])
  {
    AbsorbMeaning(best, c);
    forall d | d in front + [c] && d.content == r.content ensures !RanksBefore(d, r) {
      if r.content != c.content {
        assert r in best && d in front;
      } else if d in front {
        var y :| y in best && y.content == d.content;
        RanksWeakOrder(r, y, d);
      } else {
        assert d == c;
      }
    }
  }

  lemma {:induction false} InsertMeaning(ranked: seq<WorkspaceCandidate>, c: WorkspaceCandidate)
    requires InRankOrder(ranked)
    ensures InRankOrder(Insert(ranked, c))
    ensures forall x :: x in Insert(ranked, c) <==> x in ranked || x == c
    ensures |Insert(ranked, c)| == |ranked| + 1
    ensures UniqueContent(ranked) && !HasContent(ranked, c.content) ==> UniqueContent(Insert(ranked, c))
  {
    if ranked != [] {
      assert ranked == [ranked[0]] + ranked[1..];
      if RanksBefore(c, ranked[0]) {
        RanksAsymmetric(c, ranked[0]);
        forall j | 0 <= j < |ranked| ensures !RanksBefore(ranked[j], c) {
          RanksAsymmetric(ranked[0], ranked[0]);
          RanksWeakOrder(c, ranked[0], ranked[j]);
        }
      } else {
        InsertMeaning(ranked[1..], c);
        var rest := Insert(ranked[1..], c);
        forall j | 0 <= j < |rest| ensures !RanksBefore(rest[j], ranked[0]) {
          assert rest[j] in rest;
        }
        if UniqueContent(ranked) && !HasContent(ranked, c.content) {
          assert !HasContent(ranked[1..], c.content);
          forall j | 0 <= j < |rest| ensures rest[j].content != ranked[0].content {
            assert rest[j] in rest;
          }
        }
      }
    }
  }

  lemma {:induction false} RankedMeaning(items: seq<WorkspaceCandidate>)
    ensures InRankOrder(Ranked(items))
    ensures forall x :: x in Ranked(items) <==> x in items
    ensures |Ranked(items)| == |items|
    ensures UniqueContent(items) ==> UniqueContent(Ranked(items))
  {
    hide Insert, RanksBefore;
    if items != [] {
      var front := items[..|items| - 1];
      RankedMeaning(front);
      InsertMeaning(Ranked(front), items[|items| - 1]);
      assert items == front + [items[|items| - 1]];
      if UniqueContent(items) {
        forall i | 0 <= i < |Ranked(front)|
          ensures Ranked(front)[i].content != items[|items| - 1].content
        {
          assert Ranked(front)[i] in front;
        }
      }
    }
  }

  // The broadcast has at most `capacity` members with distinct contents in
  // rank order, each the best bid for its content; a content that is left out
  // is left out because the broadcast is full of bids it does not outrank.
  lemma {:induction false} BroadcastMeaning(candidates: seq<WorkspaceCandidate>, capacity: nat)
    ensures var r := Chosen(candidates, capacity);
            && |r| <= capacity && UniqueContent(r) && InRankOrder(r)
            && (forall x :: x in r ==> BestOf(x, candidates))
            && (forall c :: c in candidates && !HasContent(r, c.content) ==>
                  |r| == capacity && forall x :: x in r ==> !RanksBefore(c, x))
  {
    var best := BestByContent(candidates);
    var ranked := Ranked(best);
    var r := Chosen(candidates, capacity);
    BestMeaning(candidates);
    RankedMeaning(best);
    assert forall x :: x in r ==> x in ranked;
    forall c | c in candidates && !HasContent(r, c.content)
      ensures |r| == capacity && forall x :: x in r ==> !RanksBefore(c, x)
    {
      var b :| b in best && b.content == c.content;
      OmittedIsOutranked(ranked, capacity, b, c);
    }
  }

  lemma OmittedIsOutranked(ranked: seq<WorkspaceCandidate>, capacity: nat,
                           b: WorkspaceCandidate, c: WorkspaceCandidate)
    requires InRankOrder(ranked) && b in ranked && !RanksBefore(c, b)
    requires !HasContent(Take(ranked, capacity), b.content)
    ensures |Take(ranked, capacity)| == capacity
    ensures forall x :: x in Take(ranked, capacity) ==> !RanksBefore(c, x)
  {
    var r := Take(ranked, capacity);
    var k :| 0 <= k < |ranked| && ranked[k] == b;
    assert k >= |r|;
    forall x | x in r ensures !RanksBefore(c, x) {
      var i :| 0 <= i < |r| && r[i] == x;
      assert !RanksBefore(ranked[k], ranked[i]);
      RanksWeakOrder(x, b, c);
    }
  }

  lemma {:induction false} AbsorbNew(best: seq<WorkspaceCandidate>, c: WorkspaceCandidate)
    requires !HasContent(best, c.content)
    ensures Absorb(best, c) == best + [c]
  {
    if best != [] {
      assert best[0].content != c.content;
      forall i | 0 <= i < |best[1..]| ensures best[1..][i].content != c.content {
        assert best[1..][i] == best[i + 1];
      }
      AbsorbNew(best[1..], c);
    }
  }

  lemma {:induction false} InsertLast(ranked: seq<WorkspaceCandidate>, c: WorkspaceCandidate)
    requires forall i :: 0 <= i < |ranked| ==> !RanksBefore(c, ranked[i])
    ensures Insert(ranked, c) == ranked + [c]
  {
    if ranked != [] {
      InsertLast(ranked[1..], c);
    }
  }

  lemma {:induction false} AlreadyBest(items: seq<WorkspaceCandidate>)
    requires UniqueContent(items)
    ensures BestByContent(items) == items
  {
    if items != [] {
      var front := items[..|items| - 1];
      AlreadyBest(front);
      AbsorbNew(front, items[|items| - 1]);
    }
  }

  lemma {:induction false} AlreadyRanked(items: seq<WorkspaceCandidate>)
    requires InRankOrder(items)
    ensures Ranked(items) == items
  {
    if items != [] {
      var front := items[..|items| - 1];
      AlreadyRanked(front);
      InsertLast(front, items[|items| - 1]);
    }
  }

  // The reducer accepts a broadcast exactly when selecting from it changes
  // nothing: the fixed points of selection are the bounded, deduplicated and
  // ranked sequences.
  lemma {:induction false} BroadcastFixedPoint(items: seq<WorkspaceCandidate>, capacity: nat)
    ensures Chosen(items, capacity) == items <==>
            |items| <= capacity && UniqueContent(items) && InRankOrder(items)
  {
    if |items| <= capacity && UniqueContent(items) && InRankOrder(items) {
      AlreadyBest(items);
      AlreadyRanked(items);
    }
    if Chosen(items, capacity) == items {
      BroadcastMeaning(items, capacity);
    }
  }

  lemma BroadcastIdempotent(candidates: seq<WorkspaceCandidate>, capacity: nat)
    ensures Chosen(Chosen(candidates, capacity), capacity) == Chosen(candidates, capacity)
  {
    BroadcastMeaning(candidates, capacity);
    BroadcastFixedPoint(Chosen(candidates, capacity), capacity);
  }

  /* ---------------- selection in scores and names ---------------- */

  // The wire name of a specialist.
  function SpecialistName(s: Specialist): string {
    match s
    case Drives => "drives"
    case IncompleteAction => "incomplete_action"
    case Memory => "memory"
    case PredictionError => "prediction_error"
    case SelfWorldConflict => "self_world_conflict"
  }

  // The higher score first; at equal scores the earlier name, and at equal
  // names the earlier id.
  predicate NoWorse(a: WorkspaceCandidate, b: WorkspaceCandidate) {
    && b.score <= a.score
    && (a.score == b.score ==>
          && StringLe(SpecialistName(a.specialist), SpecialistName(b.specialist))
          && (a.specialist == b.specialist ==> Le(a.candidateId, b.candidateId)))
  }

  lemma NamesInOrder(a: Specialist, b: Specialist)
    ensures StringLe(SpecialistName(a), SpecialistName(b)) <==> NameRank(a) <= NameRank(b)
  {
    StringLeTotal(SpecialistName(a), SpecialistName(b));
    assert SpecialistName(Drives)[0] < SpecialistName(IncompleteAction)[0] < SpecialistName(Memory)[0] <
           SpecialistName(PredictionError)[0] < SpecialistName(SelfWorldConflict)[0];
  }

  lemma RanksByScore(a: WorkspaceCandidate, b: WorkspaceCandidate)
    ensures NoWorse(a, b) <==> !RanksBefore(b, a)
  {
    NamesInOrder(a.specialist, b.specialist);
    LeTotal(a.candidateId, b.candidateId);
    hide StringLe, Le;
  }

  // Along the broadcast no bid is worse than a later one; each member is no
  // worse than any bid of its content; and no content is left out while there
  // is room, or any of whose bids would be better than a member.
  lemma BroadcastByScore(candidates: seq<WorkspaceCandidate>, capacity: nat)
    ensures var r := Chosen(candidates, capacity);
            && |r| <= capacity
            && (forall i, j :: 0 <= i < j < |r| ==> NoWorse(r[i], r[j]) && r[i].content != r[j].content)
            && (forall x :: x in r ==> x in candidates)
            && (forall x, c :: x in r && c in candidates && c.content == x.content ==> NoWorse(x, c))
            && (forall c :: c in candidates && (forall x :: x in r ==> x.content != c.content) ==>
                  |r| == capacity && forall x :: x in r ==> NoWorse(x, c))
  {
    hide *;
    BroadcastMeaning(candidates, capacity);
    var r := Chosen(candidates, capacity);
    RankedByScore(r);
    forall x, c | x in r && c in candidates && c.content == x.content ensures NoWorse(x, c) && x in candidates {
      BestByScore(x, c, candidates);
    }
    forall x | x in r ensures x in candidates {
      BestByScore(x, x, candidates);
    }
    forall c | c in candidates && (forall x :: x in r ==> x.content != c.content)
      ensures |r| == capacity && forall x :: x in r ==> NoWorse(x, c)
    {
      LeftOut(r, c);
      forall x | x in r ensures NoWorse(x, c) {
        RanksByScore(x, c);
      }
    }
  }

  lemma RankedByScore(r: seq<WorkspaceCandidate>)
    requires UniqueContent(r) && InRankOrder(r)
    ensures forall i, j :: 0 <= i < j < |r| ==> NoWorse(r[i], r[j]) && r[i].content != r[j].content
  {
    hide NoWorse, RanksBefore;
    forall i, j | 0 <= i < j < |r| ensures NoWorse(r[i], r[j]) && r[i].content != r[j].content {
      RanksByScore(r[i], r[j]);
    }
  }

  lemma BestByScore(x: WorkspaceCandidate, c: WorkspaceCandidate, candidates: seq<WorkspaceCandidate>)
    requires BestOf(x, candidates)
    ensures x in candidates && (c in candidates && c.content == x.content ==> NoWorse(x, c))
  {
    RanksByScore(x, c);
    hide NoWorse, RanksBefore;
  }

  lemma LeftOut(r: seq<WorkspaceCandidate>, c: WorkspaceCandidate)
    requires forall x :: x in r ==> x.content != c.content
    ensures !HasContent(r, c.content)
  {
  }

  /* ---------------- the JSON form of a candidate ---------------- */

  function SpecialistText(s: Specialist): Text {
    match s
    case Drives => DRIVES
    case IncompleteAction => INCOMPLETE_ACTION
    case Memory => MEMORY
    case PredictionError => PREDICTION_ERROR
    case SelfWorldConflict => SELF_WORLD_CONFLICT
  }

  function SpecialistOf(j: Json): Option<Specialist> {
    if j == Str(DRIVES) then Some(Drives)
    else if j == Str(INCOMPLETE_ACTION) then Some(IncompleteAction)
    else if j == Str(MEMORY) then Some(Memory)
    else if j == Str(PREDICTION_ERROR) then Some(PredictionError)
    else if j == Str(SELF_WORLD_CONFLICT) then Some(SelfWorldConflict)
    else None
  }

  // model_dump(mode="json")
  function CandidateJson(c: WorkspaceCandidate): Json {
    Obj(map[CANDIDATE_ID := Str(c.candidateId),
            SPECIALIST := Str(SpecialistText(c.specialist)),
            SCORE := Float(c.score),
            CONTENT := Obj(c.content),
            SOURCE_IDS := TextArray(c.sourceIds),
            CYCLE := Int(c.cycle)])
  }

  // _workspace_candidate
  function ParseCandidate(j: Json): (r: Option<WorkspaceCandidate>)
    ensures r.Some? ==> ValidCandidate(r.value)
  {
    if !j.Obj? then None
    else
      var item := j.fields;
      var id := GetText(item, CANDIDATE_ID);
      var specialist := SpecialistOf(Get(item, SPECIALIST));
      var score := ToFloat(Get(item, SCORE));
      var content := GetObj(item, CONTENT);
      var sources := GetOr(item, SOURCE_IDS, Arr([]));
      var cycle := ToInt(Get(item, CYCLE));
      if id.None? || specialist.None? || score.None? || content.None? || !IsTextArray(sources) || cycle.None?
      then None
      else
        var c := WorkspaceCandidate(id.value, specialist.value, score.value, content.value,
                                    Texts(sources), cycle.value);
        if ValidCandidate(c) then Some(c) else None
  }

  function ParseCandidates(items: seq<Json>): (r: Option<seq<WorkspaceCandidate>>)
    ensures r.Some? ==> forall i :: 0 <= i < |r.value| ==> ValidCandidate(r.value[i])
  {
    if items == [] then Some([])
    else
      var first := ParseCandidate(items[0]);
      var rest := ParseCandidates(items[1..]);
      if first.None? || rest.None? then None else Some([first.value] + rest.value)
  }

  function CandidatesJson(items: seq<WorkspaceCandidate>): seq<Json> {
    if items == [] then [] else [CandidateJson(items[0])] + CandidatesJson(items[1..])
  }

  lemma CandidateRoundTrip(c: WorkspaceCandidate)
    ensures ParseCandidate(CandidateJson(c)) == if ValidCandidate(c) then Some(c) else None
  {
    assert SpecialistOf(Str(SpecialistText(c.specialist))) == Some(c.specialist);
    var item := CandidateJson(c).fields;
    assert Get(item, SCORE) == Float(c.score) && Get(item, CYCLE) == Int(c.cycle);
    assert GetObj(item, CONTENT) == Some(c.content);
  }

  lemma {:induction false} CandidatesRoundTrip(items: seq<WorkspaceCandidate>)
    ensures ParseCandidates(CandidatesJson(items)) ==
            if (forall i :: 0 <= i < |items| ==> ValidCandidate(items[i])) then Some(items) else None
  {
    hide ValidCandidate, ParseCandidate, CandidateJson;
    if items != [] {
      CandidateRoundTrip(items[0]);
      CandidatesRoundTrip(items[1..]);
      assert CandidatesJson(items)[1..] == CandidatesJson(items[1..]);
      if forall i :: 0 <= i < |items| ==> ValidCandidate(items[i]) {
        assert items == [items[0]] + items[1..];
      } else {
        var i :| 0 <= i < |items| && !ValidCandidate(items[i]);
        if i > 0 {
          assert items[1..][i - 1] == items[i];
        }
      }
    }
  }

  /* ---------------- reduction ---------------- */

  // _reduce_workspace
  function ReduceWorkspace(w: WorkspaceState, e: Event): Result<WorkspaceState> {
    if !e.kind.WorkspaceBroadcast? then Ok(w)
    else
      var cycle := Get(e.payload, CYCLE);
      if !cycle.Int? || cycle.i != w.cycle + 1 then Err(Invariant)
      else
        var raw := Get(e.payload, CANDIDATES);
        if !raw.Arr? then Err(Invariant)
        else
          var parsed := ParseCandidates(raw.items);
          if parsed.None? then Err(Invariant)
          else if exists i :: 0 <= i < |parsed.value| && parsed.value[i].cycle != cycle.i then Err(Invariant)
          else if Chosen(parsed.value, w.capacity) != parsed.value then Err(Invariant)
          else Ok(w.(cycle := w.cycle + 1, broadcast := parsed.value))
  }

  lemma WorkspaceKept(w: WorkspaceState, e: Event)
    requires ValidWorkspace(w) && ReduceWorkspace(w, e).Ok?
    ensures ValidWorkspace(ReduceWorkspace(w, e).value)
  {
    if e.kind.WorkspaceBroadcast? {
      BroadcastFixedPoint(ReduceWorkspace(w, e).value.broadcast, w.capacity);
    }
  }

  // _reduce_memory
  function ParseMemory(p: Payload): (r: Option<MemoryRecord>)
    ensures r.Some? ==> ValidMemory(r.value) && Get(p, MEMORY_ID) == Str(r.value.memoryId)
  {
    var id := GetText(p, MEMORY_ID);
    var content := GetObj(p, CONTENT);
    var salience := ToFloat(GetOr(p, SALIENCE, Float(0.5)));
    var sources := GetOr(p, SOURCE_IDS, Arr([]));
    if id.None? || content.None? || salience.None? || !(0.0 <= salience.value <= 1.0) || !IsTextArray(sources)
    then None
    else Some(MemoryRecord(id.value, content.value, salience.value, Texts(sources)))
  }
}
