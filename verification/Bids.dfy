// What the five specialists bid, read off the state (core/workspace.py).
module Bids {
  import opened Prelude
  import opened Values
  import opened Limits
  import opened State
  import opened Specialists
  import Actions
  import Personality
  import World
  import W = Workspace

  /* ---------------- sorted lists ---------------- */

  ghost predicate InOrder(items: seq<Text>) {
    forall i, j :: 0 <= i < j < |items| ==> Le(items[i], items[j])
  }

  lemma {:induction false} InsertedHolds(sorted: seq<Text>, t: Text)
    ensures multiset(InsertText(sorted, t)) == multiset(sorted) + multiset{t}
  {
    if sorted != [] {
      var rest := sorted[1..];
      assert sorted == [sorted[0]] + rest;
      InsertedHolds(rest, t);
      hide Le;
    }
  }

  lemma {:induction false} InsertedInOrder(sorted: seq<Text>, t: Text)
    requires InOrder(sorted)
    ensures InOrder(InsertText(sorted, t))
  {
    if sorted != [] {
      var rest := sorted[1..];
      LeTotal(sorted[0], t);
      if Le(sorted[0], t) {
        InsertedInOrder(rest, t);
        InsertedHolds(rest, t);
        FirstIsLeast(sorted, t);
        ConsInOrder(sorted[0], InsertText(rest, t));
        hide InOrder, Le;
      } else {
        forall x | x in sorted ensures Le(t, x) {
          var i :| 0 <= i < |sorted| && sorted[i] == x;
          if i > 0 {
            LeTransitive(t, sorted[0], x);
          }
        }
        ConsInOrder(t, sorted);
        hide InOrder, Le;
      }
    }
  }

  lemma FirstIsLeast(sorted: seq<Text>, t: Text)
    requires sorted != [] && InOrder(sorted) && Le(sorted[0], t)
    requires multiset(InsertText(sorted[1..], t)) == multiset(sorted[1..]) + multiset{t}
    ensures forall x :: x in InsertText(sorted[1..], t) ==> Le(sorted[0], x)
  {
    var rest, r := sorted[1..], InsertText(sorted[1..], t);
    hide InsertText, Le;
    forall x | x in r ensures Le(sorted[0], x) {
      assert x in multiset(r);
      if x != t {
        assert x in multiset(rest) && x in rest;
        var i :| 0 <= i < |rest| && rest[i] == x;
        assert sorted[i + 1] == x;
      }
    }
  }

  lemma ConsInOrder(first: Text, rest: seq<Text>)
    requires InOrder(rest) && forall x :: x in rest ==> Le(first, x)
    ensures InOrder([first] + rest)
  {
    var all := [first] + rest;
    hide Le;
    forall i, j | 0 <= i < j < |all| ensures Le(all[i], all[j]) {
      assert all[j] == rest[j - 1] && rest[j - 1] in rest;
      assert i > 0 ==> all[i] == rest[i - 1];
    }
  }

  // A list sorted: the same texts, in order.
  lemma {:induction false} SortedTexts(items: seq<Text>)
    ensures InOrder(SortTexts(items)) && multiset(SortTexts(items)) == multiset(items)
  {
    if items != [] {
      SortedTexts(items[1..]);
      InsertedInOrder(SortTexts(items[1..]), items[0]);
      InsertedHolds(SortTexts(items[1..]), items[0]);
      assert items == [items[0]] + items[1..];
    }
  }

  /* ---------------- scores ---------------- */

  // `first` with `step` for each of n, but never more than `most`.
  function Stepped(first: real, step: real, most: real, n: nat): real {
    if first + (n as real) * step >= most then most else first + (n as real) * step
  }

  lemma ScoreIs(n: nat)
    ensures Stepped(0.2, 0.2, 0.9, n) == 0.2 + Personality.Min(0.7, n as real * 0.2)
    ensures Stepped(0.15, 0.15, 0.9, n) == 0.15 + Personality.Min(0.75, n as real * 0.15)
    ensures 0.2 <= Stepped(0.2, 0.2, 0.9, n) <= 0.9 && 0.15 <= Stepped(0.15, 0.15, 0.9, n) <= 0.9
  {
  }

  // A bid of this cycle with its specialist, score, content and sources.
  ghost predicate Says(c: W.WorkspaceCandidate, specialist: W.Specialist, score: real, content: Payload, sources: set<Text>,
                 cycle: nat)
  {
    && c.specialist == specialist && c.score == score && c.content == content && c.cycle == cycle
    && |c.sourceIds| == |sources| && forall t :: t in c.sourceIds <==> t in sources
  }

  lemma CandidateSays(h: Hashes, cycle: nat, specialist: W.Specialist, score: real, content: Payload, sources: set<Text>)
    requires cycle >= 1 && 0.0 <= score <= 1.0 && Candidate(h, cycle, specialist, score, content, sources).Some?
    ensures Says(Candidate(h, cycle, specialist, score, content, sources).value, specialist, score, content, sources, cycle)
  {
  }

  /* ---------------- prediction error ---------------- */

  // The last of the propositions with this id is at j.
  predicate LastAt(items: World.Propositions, id: Text, j: nat) {
    && j < |items| && items[j].propositionId == id
    && forall k :: j < k < |items| ==> items[k].propositionId != id
  }

  // What is believed under the id of the newest observation of it, but
  // otherwise.
  ghost predicate Disagrees(belief: World.WorldProposition, observed: World.Propositions) {
    exists j: nat :: LastAt(observed, belief.propositionId, j) && observed[j].content != belief.content
  }

  lemma {:induction false} LookedUp(items: World.Propositions, id: Text)
    ensures Lookup(items, id).None? <==> forall j :: 0 <= j < |items| ==> items[j].propositionId != id
    ensures Lookup(items, id).Some? ==>
              exists j: nat :: LastAt(items, id, j) && items[j] == Lookup(items, id).value
  {
    if items != [] {
      var n := |items| - 1;
      var front := items[..n];
      if items[n].propositionId == id {
        assert LastAt(items, id, n);
      } else {
        LookedUp(front, id);
        assert forall k :: 0 <= k < n ==> front[k] == items[k];
        if Lookup(front, id).Some? {
          var j: nat :| LastAt(front, id, j) && front[j] == Lookup(front, id).value;
          assert LastAt(items, id, j);
        }
      }
    }
  }

  lemma OneLast(items: World.Propositions, id: Text, i: nat, j: nat)
    requires LastAt(items, id, i) && LastAt(items, id, j)
    ensures i == j
  {
  }

  lemma DisagreesIs(belief: World.WorldProposition, observed: World.Propositions)
    ensures Disagrees(belief, observed) <==>
            var seen := Lookup(observed, belief.propositionId); seen.Some? && seen.value.content != belief.content
  {
    hide Lookup;
    var id := belief.propositionId;
    LookedUp(observed, id);
    if Lookup(observed, id).Some? {
      var i: nat :| LastAt(observed, id, i) && observed[i] == Lookup(observed, id).value;
      if j: nat :| LastAt(observed, id, j) && observed[j].content != belief.content {
        OneLast(observed, id, i, j);
      }
    }
  }

  // The ids of the beliefs that disagree with what is observed, in order.
  ghost function Disagreeing(believed: World.Propositions, observed: World.Propositions): seq<Text> {
    if believed == [] then []
    else (if Disagrees(believed[0], observed) then [believed[0].propositionId] else [])
         + Disagreeing(believed[1..], observed)
  }

  lemma {:induction false} ConflictsDisagree(believed: World.Propositions, observed: World.Propositions)
    ensures Conflicts(believed, observed) == Disagreeing(believed, observed)
  {
    if believed != [] {
      DisagreesIs(believed[0], observed);
      ConflictsDisagree(believed[1..], observed);
    }
  }

  // The bid on beliefs against observations: 0.2, and 0.2 for each conflict up
  // to 0.9.
  lemma PredictionErrorSays(w: World.WorldModel, cycle: nat, h: Hashes)
    requires cycle >= 1 && PredictionError(w, cycle, h).Some?
    ensures var ids := Disagreeing(w.believed, w.observed);
            Says(PredictionError(w, cycle, h).value, W.PredictionError, Stepped(0.2, 0.2, 0.9, |ids|),
                 map[CONFLICTING_PROPOSITION_IDS := TextArray(SortTexts(ids))], TextSet(ids), cycle)
  {
    hide *;
    var ids := Conflicts(w.believed, w.observed);
    ConflictsDisagree(w.believed, w.observed);
    PredictionErrorIs(w, cycle, h);
    CandidateSays(h, cycle, W.PredictionError, Stepped(0.2, 0.2, 0.9, |ids|),
                  map[CONFLICTING_PROPOSITION_IDS := TextArray(SortTexts(ids))], TextSet(ids));
  }

  lemma PredictionErrorIs(w: World.WorldModel, cycle: nat, h: Hashes)
    requires cycle >= 1
    ensures var ids := Conflicts(w.believed, w.observed);
            var score := Stepped(0.2, 0.2, 0.9, |ids|);
            0.0 <= score <= 1.0 &&
            PredictionError(w, cycle, h) ==
            Candidate(h, cycle, W.PredictionError, score,
                      map[CONFLICTING_PROPOSITION_IDS := TextArray(SortTexts(ids))], TextSet(ids))
  {
    hide Conflicts, SortTexts, TextSet, TextArray, Candidate, Stepped, Personality.Min, IsBid;
    ScoreIs(|Conflicts(w.believed, w.observed)|);
  }

  /* ---------------- drives ---------------- */

  // The most active, and among the equally active the first by id.
  ghost predicate Strongest(v: Personality.EnergyVector, energies: seq<Personality.EnergyVector>) {
    v in energies && forall x :: x in energies ==>
      Personality.Activation(x) <= Personality.Activation(v) &&
      (Personality.Activation(x) == Personality.Activation(v) ==> Le(v.actionId, x.actionId))
  }

  lemma {:induction false} TopIsStrongest(energies: seq<Personality.EnergyVector>)
    requires energies != []
    ensures Strongest(Top(energies).value, energies)
  {
    var v, rest := energies[0], energies[1..];
    assert energies == [v] + rest;
    LeTotal(v.actionId, v.actionId);
    if rest != [] {
      TopIsStrongest(rest);
      var t := Top(rest).value;
      LeTotal(v.actionId, t.actionId);
      forall x | x in energies
        ensures var r := Top(energies).value;
                Personality.Activation(x) <= Personality.Activation(r) &&
                (Personality.Activation(x) == Personality.Activation(r) ==> Le(r.actionId, x.actionId))
      {
        LeTotal(x.actionId, v.actionId);
        if Le(v.actionId, t.actionId) && Le(t.actionId, x.actionId) {
          LeTransitive(v.actionId, t.actionId, x.actionId);
        }
        if Le(t.actionId, v.actionId) && Le(v.actionId, x.actionId) {
          LeTransitive(t.actionId, v.actionId, x.actionId);
        }
      }
    }
  }

  // The bid of the strongest drive: its activation, or 0.15 if there is none.
  lemma DrivesSay(energies: seq<Personality.EnergyVector>, cycle: nat, h: Hashes)
    requires cycle >= 1 && Drives(energies, cycle, h).Some?
    ensures energies == [] ==>
              Says(Drives(energies, cycle, h).value, W.Drives, 0.15, map[ACTION_ID := Null, ACTIVATION := Float(0.0)], {}, cycle)
    ensures energies != [] ==>
              exists v :: Strongest(v, energies) &&
                Says(Drives(energies, cycle, h).value, W.Drives, Personality.Activation(v),
                     map[ACTION_ID := Str(v.actionId), ACTIVATION := Float(Personality.Activation(v))], {v.actionId}, cycle)
  {
    hide Personality.Activation, Says, Candidate, Strongest;
    if energies == [] {
      CandidateSays(h, cycle, W.Drives, 0.15, map[ACTION_ID := Null, ACTIVATION := Float(0.0)], {});
    } else {
      TopIsStrongest(energies);
      var v := Top(energies).value;
      CandidateSays(h, cycle, W.Drives, Personality.Activation(v),
                    map[ACTION_ID := Str(v.actionId), ACTIVATION := Float(Personality.Activation(v))], {v.actionId});
    }
  }

  /* ---------------- incomplete actions ---------------- */

  // The ids of the actions that are not reconstructed, in order.
  function Unfinished(actions: seq<Actions.ActionRecord>): seq<Text> {
    if actions == [] then []
    else (if actions[0].phase == Actions.Reconstructed then [] else [actions[0].actionId]) + Unfinished(actions[1..])
  }

  lemma {:induction false} IncompleteUnfinished(actions: seq<Actions.ActionRecord>)
    ensures Incomplete(actions) == Unfinished(actions)
  {
    if actions != [] {
      IncompleteUnfinished(actions[1..]);
    }
  }

  // The bid on unfinished actions: 0.15, and 0.15 for each up to 0.9.
  lemma IncompleteActionSays(actions: seq<Actions.ActionRecord>, cycle: nat, h: Hashes)
    requires cycle >= 1 && IncompleteAction(actions, cycle, h).Some?
    ensures var ids := Unfinished(actions);
            Says(IncompleteAction(actions, cycle, h).value, W.IncompleteAction, Stepped(0.15, 0.15, 0.9, |ids|),
                 map[ACTION_IDS := TextArray(SortTexts(ids))], TextSet(ids), cycle)
  {
    hide *;
    var ids := Incomplete(actions);
    IncompleteUnfinished(actions);
    IncompleteActionIs(actions, cycle, h);
    CandidateSays(h, cycle, W.IncompleteAction, Stepped(0.15, 0.15, 0.9, |ids|),
                  map[ACTION_IDS := TextArray(SortTexts(ids))], TextSet(ids));
  }

  lemma IncompleteActionIs(actions: seq<Actions.ActionRecord>, cycle: nat, h: Hashes)
    requires cycle >= 1
    ensures var ids := Incomplete(actions);
            var score := Stepped(0.15, 0.15, 0.9, |ids|);
            0.0 <= score <= 1.0 &&
            IncompleteAction(actions, cycle, h) ==
            Candidate(h, cycle, W.IncompleteAction, score, map[ACTION_IDS := TextArray(SortTexts(ids))], TextSet(ids))
  {
    hide Incomplete, SortTexts, TextSet, TextArray, Candidate, Stepped, Personality.Min, IsBid;
    ScoreIs(|Incomplete(actions)|);
  }

  /* ---------------- memory ---------------- */

  // The salience of the newest memory, at least 0.15; with something broadcast
  // before, 0.1 more, up to 1.
  function Recollection(memories: seq<W.MemoryRecord>, prior: nat): real {
    var base := if memories == [] || memories[|memories| - 1].salience <= 0.15 then 0.15
                else memories[|memories| - 1].salience;
    if prior == 0 then base else if base >= 0.9 then 1.0 else base + 0.1
  }

  // The ids that the memory bid cites.
  function Cited(memories: seq<W.MemoryRecord>, broadcast: seq<W.WorkspaceCandidate>): set<Text> {
    (set i | 0 <= i < |broadcast| :: broadcast[i].candidateId) +
    (if memories == [] then {} else {memories[|memories| - 1].memoryId})
  }

  lemma CitedIs(memories: seq<W.MemoryRecord>, broadcast: seq<W.WorkspaceCandidate>)
    ensures TextSet(MemorySources(memories, broadcast)) == Cited(memories, broadcast)
  {
    var sources := MemorySources(memories, broadcast);
    var prior := PriorIds(broadcast);
    forall t ensures t in sources <==> t in Cited(memories, broadcast) {
      if t in prior {
        var i :| 0 <= i < |prior| && prior[i] == t;
        assert broadcast[i].candidateId == t;
      }
      if i :| 0 <= i < |broadcast| && broadcast[i].candidateId == t {
        assert prior[i] == t;
      }
    }
    hide TextSet;
  }

  lemma MemoryBidSays(memories: seq<W.MemoryRecord>, broadcast: seq<W.WorkspaceCandidate>, cycle: nat, h: Hashes)
    requires cycle >= 1 && MemoryBid(memories, broadcast, cycle, h).Some?
    requires forall i :: 0 <= i < |memories| ==> W.ValidMemory(memories[i])
    ensures Says(MemoryBid(memories, broadcast, cycle, h).value, W.Memory, Recollection(memories, |broadcast|),
                 map[MEMORY_ID := if memories == [] then Null else Str(memories[|memories| - 1].memoryId),
                     PRIOR_BROADCAST_IDS := TextArray(PriorIds(broadcast))], Cited(memories, broadcast), cycle)
  {
    var content := map[MEMORY_ID := if memories == [] then Null else Str(memories[|memories| - 1].memoryId),
                       PRIOR_BROADCAST_IDS := TextArray(PriorIds(broadcast))];
    CitedIs(memories, broadcast);
    MemoryScore(memories, |broadcast|);
    hide TextArray, Says, Candidate, Cited, Recollection, MemorySources, TextSet;
    CandidateSays(h, cycle, W.Memory, Recollection(memories, |broadcast|), content, Cited(memories, broadcast));
  }

  lemma MemoryScore(memories: seq<W.MemoryRecord>, prior: nat)
    requires forall i :: 0 <= i < |memories| ==> W.ValidMemory(memories[i])
    ensures var recent := Newest(memories);
            var base := if recent.None? || recent.value.salience < 0.15 then 0.15 else recent.value.salience;
            Recollection(memories, prior) == if prior == 0 then base else Personality.Min(1.0, base + 0.1)
    ensures 0.0 <= Recollection(memories, prior) <= 1.0
  {
    assert memories != [] ==> W.ValidMemory(memories[|memories| - 1]);
  }

  /* ---------------- self/world conflict ---------------- */

  lemma {:induction false} KeysObserved(items: World.Propositions)
    ensures forall k :: k in ObservedKeys(items) <==> exists i :: 0 <= i < |items| && k in items[i].content
  {
    if items != [] {
      var rest := items[1..];
      KeysObserved(rest);
      assert forall i :: 0 <= i < |rest| ==> rest[i] == items[i + 1];
      assert forall i :: 0 < i < |items| ==> items[i] == rest[i - 1];
    }
  }

  // The ideals that nothing observed speaks of.
  function Unseen(ideals: Personality.LayerValues, observed: World.Propositions): set<Text> {
    set k | k in ideals && forall i :: 0 <= i < |observed| ==> k !in observed[i].content
  }

  lemma UnmatchedIsUnseen(ideals: Personality.LayerValues, observed: World.Propositions)
    ensures Unmatched(ideals, observed) == Unseen(ideals, observed)
  {
    KeysObserved(observed);
    hide ObservedKeys;
  }

  // The bid on them: 0.15, and 0.15 for each up to 0.9.
  lemma SelfWorldConflictSays(ideals: Personality.LayerValues, observed: World.Propositions, cycle: nat, h: Hashes)
    requires cycle >= 1 && SelfWorldConflict(ideals, observed, cycle, h).Some?
    ensures var keys := Unseen(ideals, observed);
            Says(SelfWorldConflict(ideals, observed, cycle, h).value, W.SelfWorldConflict,
                 Stepped(0.15, 0.15, 0.9, |keys|), map[UNMATCHED_NARRATIVE_KEYS := TextArray(Sorted(keys))], keys, cycle)
  {
    hide *;
    var keys := Unmatched(ideals, observed);
    UnmatchedIsUnseen(ideals, observed);
    SelfWorldConflictIs(ideals, observed, cycle, h);
    CandidateSays(h, cycle, W.SelfWorldConflict, Stepped(0.15, 0.15, 0.9, |keys|),
                  map[UNMATCHED_NARRATIVE_KEYS := TextArray(Sorted(keys))], keys);
  }

  lemma SelfWorldConflictIs(ideals: Personality.LayerValues, observed: World.Propositions, cycle: nat, h: Hashes)
    requires cycle >= 1
    ensures var keys := Unmatched(ideals, observed);
            var score := Stepped(0.15, 0.15, 0.9, |keys|);
            0.0 <= score <= 1.0 &&
            SelfWorldConflict(ideals, observed, cycle, h) ==
            Candidate(h, cycle, W.SelfWorldConflict, score, map[UNMATCHED_NARRATIVE_KEYS := TextArray(Sorted(keys))], keys)
  {
    hide Unmatched, TextArray, Candidate, Sorted, Stepped, Personality.Min, IsBid;
    ScoreIs(|Unmatched(ideals, observed)|);
  }

  // The five bids of a cycle, in this order.
  lemma FiveBids(s: BrainState, h: Hashes)
    requires Derive(s, h).Some?
    ensures var bids, cycle := Derive(s, h).value, s.workspace.cycle + 1;
            && |bids| == 5
            && Some(bids[0]) == PredictionError(s.world, cycle, h)
            && Some(bids[1]) == Drives(s.energies, cycle, h)
            && Some(bids[2]) == IncompleteAction(s.actions, cycle, h)
            && Some(bids[3]) == MemoryBid(s.memories, s.workspace.broadcast, cycle, h)
            && Some(bids[4]) == SelfWorldConflict(s.personality.values.narrativeIdeal, s.world.observed, cycle, h)
  {
    hide PredictionError, Drives, IncompleteAction, MemoryBid, SelfWorldConflict;
  }

  // Each of them says what the state says.
  lemma DerivedSay(s: BrainState, h: Hashes)
    requires Derive(s, h).Some? && forall i :: 0 <= i < |s.memories| ==> W.ValidMemory(s.memories[i])
    ensures var bids, cycle := Derive(s, h).value, s.workspace.cycle + 1;
            var conflicts, unfinished := Disagreeing(s.world.believed, s.world.observed), Unfinished(s.actions);
            var unseen := Unseen(s.personality.values.narrativeIdeal, s.world.observed);
            && |bids| == 5
            && Says(bids[0], W.PredictionError, Stepped(0.2, 0.2, 0.9, |conflicts|),
                    map[CONFLICTING_PROPOSITION_IDS := TextArray(SortTexts(conflicts))], TextSet(conflicts), cycle)
            && (s.energies == [] ==>
                  Says(bids[1], W.Drives, 0.15, map[ACTION_ID := Null, ACTIVATION := Float(0.0)], {}, cycle))
            && (s.energies != [] ==>
                  exists v :: Strongest(v, s.energies) &&
                    Says(bids[1], W.Drives, Personality.Activation(v),
                         map[ACTION_ID := Str(v.actionId), ACTIVATION := Float(Personality.Activation(v))], {v.actionId}, cycle))
            && Says(bids[2], W.IncompleteAction, Stepped(0.15, 0.15, 0.9, |unfinished|),
                    map[ACTION_IDS := TextArray(SortTexts(unfinished))], TextSet(unfinished), cycle)
            && Says(bids[3], W.Memory, Recollection(s.memories, |s.workspace.broadcast|),
                    map[MEMORY_ID := if s.memories == [] then Null else Str(s.memories[|s.memories| - 1].memoryId),
                        PRIOR_BROADCAST_IDS := TextArray(PriorIds(s.workspace.broadcast))],
                    Cited(s.memories, s.workspace.broadcast), cycle)
            && Says(bids[4], W.SelfWorldConflict, Stepped(0.15, 0.15, 0.9, |unseen|),
                    map[UNMATCHED_NARRATIVE_KEYS := TextArray(Sorted(unseen))], unseen, cycle)
  {
    var cycle := s.workspace.cycle + 1;
    hide *;
    FiveBids(s, h);
    PredictionErrorSays(s.world, cycle, h);
    DrivesSay(s.energies, cycle, h);
    IncompleteActionSays(s.actions, cycle, h);
    MemoryBidSays(s.memories, s.workspace.broadcast, cycle, h);
    SelfWorldConflictSays(s.personality.values.narrativeIdeal, s.world.observed, cycle, h);
  }
}
