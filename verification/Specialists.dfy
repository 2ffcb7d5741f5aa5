// The five pure specialists that bid for the workspace (core/workspace.py).
module Specialists {
  import opened Prelude
  import opened Values
  import opened Limits
  import opened State
  import Keyed
  import Actions
  import Personality
  import World
  import W = Workspace

  // The content hashes of the source: any functions whose results are not
  // blank.
  datatype Hashes = Hashes(
    candidate: (nat, W.Specialist, Payload) -> Text,
    fingerprint: Payload -> Text,
    seed: Payload -> nat)

  ghost predicate Readable(h: Hashes) {
    && (forall cycle, specialist, content :: !Blank(h.candidate(cycle, specialist, content)))
    && (forall content :: !Empty(h.fingerprint(content)))
  }

  // sorted(list), duplicates kept.
  function InsertText(sorted: seq<Text>, t: Text): seq<Text> {
    if sorted == [] then [t]
    else if Le(sorted[0], t) then [sorted[0]] + InsertText(sorted[1..], t)
    else [t] + sorted
  }

  function SortTexts(items: seq<Text>): seq<Text> {
    if items == [] then [] else InsertText(SortTexts(items[1..]), items[0])
  }

  function TextSet(items: seq<Text>): (r: set<Text>)
    ensures forall t :: t in r <==> t in items
    ensures |r| <= |items|
  {
    if items == [] then {}
    else
      assert items == [items[0]] + items[1..];
      {items[0]} + TextSet(items[1..])
  }

  // A well-formed bid of this cycle, named by the hash of its content.
  predicate IsBid(c: W.WorkspaceCandidate, h: Hashes, cycle: nat) {
    W.ValidCandidate(c) && c.cycle == cycle && c.candidateId == h.candidate(cycle, c.specialist, c.content)
  }

  // _candidate; None where the candidate model refuses its source ids.
  function Candidate(h: Hashes, cycle: nat, specialist: W.Specialist, score: real, content: Payload,
                     sources: set<Text>): (r: Option<W.WorkspaceCandidate>)
    requires cycle >= 1
    ensures r.Some? ==> IsBid(r.value, h, cycle)
  {
    var c := W.WorkspaceCandidate(h.candidate(cycle, specialist, content), specialist, Personality.Clamp(score),
                                  content, Sorted(sources), cycle);
    if W.ValidCandidate(c) then Some(c) else None
  }

  predicate SourcesOk(sources: set<Text>) {
    |sources| <= MAX_SOURCE_IDS && forall t :: t in sources ==> !Blank(t)
  }

  lemma CandidateExists(h: Hashes, cycle: nat, specialist: W.Specialist, score: real, content: Payload, sources: set<Text>)
    requires cycle >= 1 && Readable(h)
    ensures Candidate(h, cycle, specialist, score, content, sources).Some? <==> SourcesOk(sources)
  {
    var ids := Sorted(sources);
    if SourcesOk(sources) {
      forall i | 0 <= i < |ids| ensures !Blank(ids[i]) {
        assert ids[i] in ids;
      }
    }
    if W.SourceIdsOk(ids) {
      forall t | t in sources ensures !Blank(t) {
        assert t in ids;
      }
    }
    assert !Blank(h.candidate(cycle, specialist, content));
    hide Blank;
  }

  /* ---------------- prediction error ---------------- */

  // {item.proposition_id: item for item in items}.get(id)
  function Lookup(items: World.Propositions, id: Text): Option<World.WorldProposition> {
    if items == [] then None
    else
      var last := items[|items| - 1];
      if last.propositionId == id then Some(last) else Lookup(items[..|items| - 1], id)
  }

  function Conflicts(believed: World.Propositions, observed: World.Propositions): (r: seq<Text>)
    ensures |r| <= |believed|
    ensures forall t :: t in r ==> exists i :: 0 <= i < |believed| && believed[i].propositionId == t
  {
    if believed == [] then []
    else
      var p := believed[0];
      var seen := Lookup(observed, p.propositionId);
      var rest := Conflicts(believed[1..], observed);
      assert forall i :: 0 <= i < |believed[1..]| ==> believed[1..][i] == believed[i + 1];
      if seen.Some? && seen.value.content != p.content then [p.propositionId] + rest else rest
  }

  function PredictionError(w: World.WorldModel, cycle: nat, h: Hashes): (r: Option<W.WorkspaceCandidate>)
    requires cycle >= 1
    ensures r.Some? ==> IsBid(r.value, h, cycle)
  {
    var conflicts := Conflicts(w.believed, w.observed);
    Candidate(h, cycle, W.PredictionError, 0.2 + Personality.Min(0.7, |conflicts| as real * 0.2),
              map[CONFLICTING_PROPOSITION_IDS := TextArray(SortTexts(conflicts))], TextSet(conflicts))
  }

  /* ---------------- drives ---------------- */

  // (-activation, action_id) compared as Python tuples.
  predicate DrivesBefore(a: Personality.EnergyVector, b: Personality.EnergyVector) {
    Personality.Activation(a) > Personality.Activation(b) ||
    (Personality.Activation(a) == Personality.Activation(b) && a.actionId != b.actionId && Le(a.actionId, b.actionId))
  }

  // sorted(...)[0]
  function Top(energies: seq<Personality.EnergyVector>): (r: Option<Personality.EnergyVector>)
    ensures r.None? <==> energies == []
    ensures r.Some? ==> r.value in energies
  {
    if energies == [] then None
    else
      var rest := Top(energies[1..]);
      if rest.None? || !DrivesBefore(rest.value, energies[0]) then Some(energies[0]) else rest
  }

  function Drives(energies: seq<Personality.EnergyVector>, cycle: nat, h: Hashes): (r: Option<W.WorkspaceCandidate>)
    requires cycle >= 1
    ensures r.Some? ==> IsBid(r.value, h, cycle)
  {
    var top := Top(energies);
    var activation := if top.None? then 0.0 else Personality.Activation(top.value);
    Candidate(h, cycle, W.Drives, if top.None? then 0.15 else activation,
              map[ACTION_ID := if top.None? then Null else Str(top.value.actionId), ACTIVATION := Float(activation)],
              if top.None? then {} else {top.value.actionId})
  }

  /* ---------------- incomplete actions ---------------- */

  function Incomplete(actions: seq<Actions.ActionRecord>): (r: seq<Text>)
    ensures |r| <= |actions|
    ensures forall t :: t in r <==>
              exists i :: 0 <= i < |actions| && actions[i].actionId == t && actions[i].phase != Actions.Reconstructed
  {
    if actions == [] then []
    else
      var rest := Incomplete(actions[1..]);
      assert forall i :: 0 <= i < |actions[1..]| ==> actions[1..][i] == actions[i + 1];
      if actions[0].phase != Actions.Reconstructed then [actions[0].actionId] + rest else rest
  }

  function IncompleteAction(actions: seq<Actions.ActionRecord>, cycle: nat, h: Hashes)
    : (r: Option<W.WorkspaceCandidate>)
    requires cycle >= 1
    ensures r.Some? ==> IsBid(r.value, h, cycle)
  {
    var ids := Incomplete(actions);
    Candidate(h, cycle, W.IncompleteAction, 0.15 + Personality.Min(0.75, |ids| as real * 0.15),
              map[ACTION_IDS := TextArray(SortTexts(ids))], TextSet(ids))
  }

  /* ---------------- memory ---------------- */

  function PriorIds(broadcast: seq<W.WorkspaceCandidate>): (r: seq<Text>)
    ensures |r| == |broadcast| && forall i :: 0 <= i < |r| ==> r[i] == broadcast[i].candidateId
  {
    seq(|broadcast|, i requires 0 <= i < |broadcast| => broadcast[i].candidateId)
  }

  function Newest(memories: seq<W.MemoryRecord>): Option<W.MemoryRecord> {
    if memories == [] then None else Some(memories[|memories| - 1])
  }

  function MemorySources(memories: seq<W.MemoryRecord>, broadcast: seq<W.WorkspaceCandidate>): seq<Text> {
    var recent := Newest(memories);
    (if recent.None? then [] else [recent.value.memoryId]) + PriorIds(broadcast)
  }

  function MemoryBid(memories: seq<W.MemoryRecord>, broadcast: seq<W.WorkspaceCandidate>, cycle: nat, h: Hashes)
    : (r: Option<W.WorkspaceCandidate>)
    requires cycle >= 1
    ensures r.Some? ==> IsBid(r.value, h, cycle)
  {
    var recent := Newest(memories);
    var prior := PriorIds(broadcast);
    var base := if recent.None? || recent.value.salience < 0.15 then 0.15 else recent.value.salience;
    Candidate(h, cycle, W.Memory, if prior == [] then base else Personality.Min(1.0, base + 0.1),
              map[MEMORY_ID := if recent.None? then Null else Str(recent.value.memoryId),
                  PRIOR_BROADCAST_IDS := TextArray(prior)],
              TextSet(MemorySources(memories, broadcast)))
  }

  /* ---------------- self/world conflict ---------------- */

  function ObservedKeys(items: World.Propositions): set<Text> {
    if items == [] then {} else items[0].content.Keys + ObservedKeys(items[1..])
  }

  function Unmatched(ideals: Personality.LayerValues, observed: World.Propositions): set<Text> {
    ideals.Keys - ObservedKeys(observed)
  }

  function SelfWorldConflict(ideals: Personality.LayerValues, observed: World.Propositions, cycle: nat, h: Hashes)
    : (r: Option<W.WorkspaceCandidate>)
    requires cycle >= 1
    ensures r.Some? ==> IsBid(r.value, h, cycle)
  {
    var unmatched := Unmatched(ideals, observed);
    Candidate(h, cycle, W.SelfWorldConflict, 0.15 + Personality.Min(0.75, |unmatched| as real * 0.15),
              map[UNMATCHED_NARRATIVE_KEYS := TextArray(Sorted(unmatched))], unmatched)
  }

  /* ---------------- derive_candidates ---------------- */

  type Bid = Option<W.WorkspaceCandidate>

  // All five, or None when one of them was refused.
  function AllBids(a: Bid, b: Bid, c: Bid, d: Bid, f: Bid): (r: Option<seq<W.WorkspaceCandidate>>)
    ensures r.Some? <==> a.Some? && b.Some? && c.Some? && d.Some? && f.Some?
  {
    if a.None? || b.None? || c.None? || d.None? || f.None? then None
    else Some([a.value, b.value, c.value, d.value, f.value])
  }

  // The five bids in their fixed order.
  function Derive(s: BrainState, h: Hashes): Option<seq<W.WorkspaceCandidate>> {
    var cycle := s.workspace.cycle + 1;
    AllBids(PredictionError(s.world, cycle, h), Drives(s.energies, cycle, h), IncompleteAction(s.actions, cycle, h),
            MemoryBid(s.memories, s.workspace.broadcast, cycle, h),
            SelfWorldConflict(s.personality.values.narrativeIdeal, s.world.observed, cycle, h))
  }

  lemma DerivedAreBids(s: BrainState, h: Hashes)
    requires Derive(s, h).Some?
    ensures var bids := Derive(s, h).value;
            forall i :: 0 <= i < |bids| ==> IsBid(bids[i], h, s.workspace.cycle + 1)
  {
    hide PredictionError, Drives, IncompleteAction, MemoryBid, SelfWorldConflict, IsBid;
  }

  // What a caller can check: few enough unmatched narrative keys, and no
  // blank identifier among the newest memory, the previous broadcast, the
  // unfinished actions and the strongest drive.
  predicate Ready(s: BrainState) {
    && |Unmatched(s.personality.values.narrativeIdeal, s.world.observed)| <= MAX_SOURCE_IDS
    && (s.memories != [] ==> !Blank(s.memories[|s.memories| - 1].memoryId))
    && (forall i :: 0 <= i < |s.workspace.broadcast| ==> !Blank(s.workspace.broadcast[i].candidateId))
    && (forall i :: 0 <= i < |s.actions| && s.actions[i].phase != Actions.Reconstructed ==>
          !Blank(s.actions[i].actionId))
    && (Top(s.energies).Some? ==> !Blank(Top(s.energies).value.actionId))
  }

  lemma ConflictSources(w: World.WorldModel)
    requires World.ValidLayer(w.believed)
    ensures SourcesOk(TextSet(Conflicts(w.believed, w.observed)))
  {
    var conflicts := Conflicts(w.believed, w.observed);
    forall t | t in TextSet(conflicts) ensures !Blank(t) {
      var i :| 0 <= i < |w.believed| && w.believed[i].propositionId == t;
      assert World.ValidProposition(w.believed[i]);
    }
  }

  predicate NamedWork(actions: seq<Actions.ActionRecord>) {
    forall i :: 0 <= i < |actions| && actions[i].phase != Actions.Reconstructed ==> !Blank(actions[i].actionId)
  }

  predicate NamedMemory(memories: seq<W.MemoryRecord>, broadcast: seq<W.WorkspaceCandidate>) {
    && (memories != [] ==> !Blank(memories[|memories| - 1].memoryId))
    && (forall i :: 0 <= i < |broadcast| ==> !Blank(broadcast[i].candidateId))
  }

  lemma IncompleteSources(actions: seq<Actions.ActionRecord>)
    requires |actions| <= MAX_ACTION_RECORDS
    ensures SourcesOk(TextSet(Incomplete(actions))) <==> NamedWork(actions)
  {
    hide Blank;
    var ids := Incomplete(actions);
    if SourcesOk(TextSet(ids)) {
      forall i | 0 <= i < |actions| && actions[i].phase != Actions.Reconstructed ensures !Blank(actions[i].actionId) {
        assert actions[i].actionId in ids;
      }
    }
  }

  lemma MemorySourcesOk(memories: seq<W.MemoryRecord>, broadcast: seq<W.WorkspaceCandidate>)
    requires |broadcast| <= MAX_WORKSPACE_BROADCAST
    ensures SourcesOk(TextSet(MemorySources(memories, broadcast))) <==> NamedMemory(memories, broadcast)
  {
    hide Blank;
    var prior := PriorIds(broadcast);
    var all := MemorySources(memories, broadcast);
    assert forall t :: t in all <==> t in prior || (memories != [] && t == memories[|memories| - 1].memoryId);
    if SourcesOk(TextSet(all)) {
      forall i | 0 <= i < |broadcast| ensures !Blank(broadcast[i].candidateId) {
        assert prior[i] in all;
      }
    }
  }

  lemma PredictionBids(w: World.WorldModel, cycle: nat, h: Hashes)
    requires Readable(h) && World.ValidLayer(w.believed) && cycle >= 1
    ensures PredictionError(w, cycle, h).Some?
  {
    hide Candidate, Readable, SourcesOk, Conflicts, TextSet, SortTexts, Personality.Min, World.ValidLayer, IsBid;
    var conflicts := Conflicts(w.believed, w.observed);
    ConflictSources(w);
    CandidateExists(h, cycle, W.PredictionError, 0.2 + Personality.Min(0.7, |conflicts| as real * 0.2),
                    map[CONFLICTING_PROPOSITION_IDS := TextArray(SortTexts(conflicts))], TextSet(conflicts));
  }

  lemma DriveBids(energies: seq<Personality.EnergyVector>, cycle: nat, h: Hashes)
    requires Readable(h) && cycle >= 1
    ensures Drives(energies, cycle, h).Some? <==> (Top(energies).Some? ==> !Blank(Top(energies).value.actionId))
  {
    hide Candidate, Readable, Top, Personality.Activation, Blank, IsBid;
    var top := Top(energies);
    var activation := if top.None? then 0.0 else Personality.Activation(top.value);
    CandidateExists(h, cycle, W.Drives, if top.None? then 0.15 else activation,
      map[ACTION_ID := if top.None? then Null else Str(top.value.actionId), ACTIVATION := Float(activation)],
      if top.None? then {} else {top.value.actionId});
  }

  lemma IncompleteBids(actions: seq<Actions.ActionRecord>, cycle: nat, h: Hashes)
    requires Readable(h) && |actions| <= MAX_ACTION_RECORDS && cycle >= 1
    ensures IncompleteAction(actions, cycle, h).Some? <==> NamedWork(actions)
  {
    hide Candidate, Readable, SourcesOk, Incomplete, TextSet, SortTexts, Personality.Min, NamedWork, IsBid;
    var ids := Incomplete(actions);
    IncompleteSources(actions);
    CandidateExists(h, cycle, W.IncompleteAction, 0.15 + Personality.Min(0.75, |ids| as real * 0.15),
                    map[ACTION_IDS := TextArray(SortTexts(ids))], TextSet(ids));
  }

  lemma MemoryBids(memories: seq<W.MemoryRecord>, broadcast: seq<W.WorkspaceCandidate>, cycle: nat, h: Hashes)
    requires Readable(h) && |broadcast| <= MAX_WORKSPACE_BROADCAST && cycle >= 1
    ensures MemoryBid(memories, broadcast, cycle, h).Some? <==> NamedMemory(memories, broadcast)
  {
    hide Candidate, Readable, SourcesOk, TextSet, MemorySources, PriorIds, Personality.Min, NamedMemory, IsBid;
    var recent := Newest(memories);
    var prior := PriorIds(broadcast);
    var base := if recent.None? || recent.value.salience < 0.15 then 0.15 else recent.value.salience;
    MemorySourcesOk(memories, broadcast);
    CandidateExists(h, cycle, W.Memory, if prior == [] then base else Personality.Min(1.0, base + 0.1),
      map[MEMORY_ID := if recent.None? then Null else Str(recent.value.memoryId),
          PRIOR_BROADCAST_IDS := TextArray(prior)], TextSet(MemorySources(memories, broadcast)));
  }

  lemma ConflictBids(ideals: Personality.LayerValues, observed: World.Propositions, cycle: nat, h: Hashes)
    requires Readable(h) && Personality.ValidValues(ideals) && cycle >= 1
    ensures SelfWorldConflict(ideals, observed, cycle, h).Some? <==> |Unmatched(ideals, observed)| <= MAX_SOURCE_IDS
  {
    var unmatched := Unmatched(ideals, observed);
    assert forall t :: t in unmatched ==> !Blank(t) by { hide Blank, ObservedKeys; }
    hide Candidate, Readable, Unmatched, Sorted, Personality.Min, Blank, Personality.ValidValues, IsBid;
    CandidateExists(h, cycle, W.SelfWorldConflict, 0.15 + Personality.Min(0.75, |unmatched| as real * 0.15),
                    map[UNMATCHED_NARRATIVE_KEYS := TextArray(Sorted(unmatched))], unmatched);
  }

  // The specialists all bid exactly when the state is ready.
  lemma DeriveExact(s: BrainState, h: Hashes)
    requires Readable(h) && World.ValidLayer(s.world.believed) && |s.actions| <= MAX_ACTION_RECORDS
    requires |s.workspace.broadcast| <= MAX_WORKSPACE_BROADCAST
    requires Personality.ValidValues(s.personality.values.narrativeIdeal)
    ensures Derive(s, h).Some? <==> Ready(s)
  {
    var cycle := s.workspace.cycle + 1;
    hide Readable, World.ValidLayer, Personality.ValidValues, Blank, Unmatched, Top, IsBid,
         PredictionError, Drives, IncompleteAction, MemoryBid, SelfWorldConflict;
    PredictionBids(s.world, cycle, h);
    DriveBids(s.energies, cycle, h);
    IncompleteBids(s.actions, cycle, h);
    MemoryBids(s.memories, s.workspace.broadcast, cycle, h);
    ConflictBids(s.personality.values.narrativeIdeal, s.world.observed, cycle, h);
  }
}
