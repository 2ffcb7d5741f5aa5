// What a trusted receipt puts into the observed layer of the world
// (core/action.py, _receipt_grounded_ids; core/world.py, reduce_world).
module Promotions {
  import opened Prelude
  import opened Values
  import opened Limits
  import opened State
  import opened Reducer
  import opened ActionRuns
  import Keyed
  import Actions
  import World

  /* ---------------- what the receipt says ---------------- */

  // The ids that a trusted receipt links as evidence of its effect.
  function Linked(e: Event, trusted: bool): set<Text> {
    var evidence := Get(e.payload, EFFECT_EVIDENCE);
    if !trusted || !evidence.Obj? || !IsTextArray(Get(evidence.fields, OBSERVATION_IDS)) then {}
    else
      var ids := Texts(Get(evidence.fields, OBSERVATION_IDS));
      set i | 0 <= i < |ids| :: ids[i]
  }

  function Observations(e: Event): seq<Json> {
    var observations := GetOr(e.payload, OBSERVATIONS, Arr([]));
    if observations.Arr? then observations.items else []
  }

  predicate IsLinked(item: Json, ids: set<Text>) {
    item.Obj? && Get(item.fields, PROPOSITION_ID).Str? && Get(item.fields, PROPOSITION_ID).t in ids
  }

  // p is the observation of the item, made by this event for its action.
  predicate Observes(p: World.WorldProposition, e: Event, item: Json) {
    && item.Obj?
    && Get(item.fields, PROPOSITION_ID) == Str(p.propositionId)
    && Get(item.fields, CONTENT) == Obj(p.content)
    && IsNumber(GetOr(item.fields, CONFIDENCE, Float(1.0)))
    && Number(GetOr(item.fields, CONFIDENCE, Float(1.0))) == p.confidence
    && p.layer == World.Observed && p.sourceEventId == e.eventId && p.sourceActorId == e.actorId
    && FromOption(p.actionId) == Get(e.payload, ACTION_ID)
  }

  // The linked items, in their order.
  function LinkedItems(items: seq<Json>, ids: set<Text>): seq<Json> {
    if items == [] then []
    else (if IsLinked(items[0], ids) then [items[0]] else []) + LinkedItems(items[1..], ids)
  }

  // The propositions under other ids, in their order.
  function Others(items: World.Propositions, ids: set<Text>): World.Propositions {
    if items == [] then []
    else (if items[0].propositionId in ids then [] else [items[0]]) + Others(items[1..], ids)
  }

  // The observations made of the items are the newest of the layer, in the
  // order of the items; before them are the newest of those that it had under
  // other ids, and all of them while there is room.
  ghost predicate Promoted(before: World.Propositions, after: World.Propositions, e: Event, items: seq<Json>,
                           ids: set<Text>) {
    && |items| <= |after| && (if items == [] then after == before else |after| <= MAX_WORLD_PROPOSITIONS_PER_LAYER)
    && var others, kept := Others(before, ids), |after| - |items|;
       && kept <= |others| && after[..kept] == others[|others| - kept..]
       && (forall i :: 0 <= i < |items| ==> Observes(after[kept + i], e, items[i]))
       && (|before| + |items| <= MAX_WORLD_PROPOSITIONS_PER_LAYER ==> kept == |others|)
       && (Keyed.Unique(World.Id, before) && kept < |others| ==> |after| == MAX_WORLD_PROPOSITIONS_PER_LAYER)
  }

  /* ---------------- one more observation ---------------- */

  lemma {:induction false} OthersMore(items: World.Propositions, ids: set<Text>, id: Text)
    ensures Others(items, ids + {id}) == Keyed.Without(World.Id, Others(items, ids), id)
    ensures |Others(items, ids)| <= |items|
  {
    if items != [] {
      OthersMore(items[1..], ids, id);
      var rest := Others(items[1..], ids);
      var left := Keyed.Without(World.Id, rest, id);
      if items[0].propositionId in ids {
        assert Others(items, ids) == rest && Others(items, ids + {id}) == left;
      } else {
        assert Others(items, ids) == [items[0]] + rest && ([items[0]] + rest)[1..] == rest;
        assert World.Id(items[0]) == items[0].propositionId;
        if items[0].propositionId == id {
          assert Others(items, ids + {id}) == left && Keyed.Without(World.Id, [items[0]] + rest, id) == left;
        } else {
          assert Others(items, ids + {id}) == [items[0]] + left;
          assert Keyed.Without(World.Id, [items[0]] + rest, id) == [items[0]] + left;
        }
      }
    }
  }

  lemma {:induction false} OthersNone(items: World.Propositions)
    ensures Others(items, {}) == items
  {
    if items != [] {
      OthersNone(items[1..]);
    }
  }

  lemma {:induction false} OthersUnique(items: World.Propositions, ids: set<Text>)
    requires Keyed.Unique(World.Id, items)
    ensures Keyed.Unique(World.Id, Others(items, ids))
    ensures forall x :: x in Others(items, ids) ==> x in items
  {
    if items != [] {
      Keyed.TailUnique(World.Id, items);
      OthersUnique(items[1..], ids);
      var rest := Others(items[1..], ids);
      forall x | x in rest ensures World.Id(x) != World.Id(items[0]) {
        var i :| 0 <= i < |items[1..]| && items[1..][i] == x;
        assert items[i + 1] == x;
      }
      assert items == [items[0]] + items[1..];
      if items[0].propositionId !in ids {
        assert !Keyed.Has(World.Id, rest, World.Id(items[0]));
        Keyed.ConsUnique(World.Id, items[0], rest);
      }
    }
  }

  lemma {:induction false} WithoutConcat(a: World.Propositions, b: World.Propositions, id: Text)
    ensures Keyed.Without(World.Id, a + b, id) == Keyed.Without(World.Id, a, id) + Keyed.Without(World.Id, b, id)
  {
    if a == [] {
      assert a + b == b;
    } else {
      assert (a + b)[1..] == a[1..] + b;
      WithoutConcat(a[1..], b, id);
    }
  }

  // Leaving a record out of the end of a sequence leaves the end of what is
  // left of it.
  lemma WithoutEnd(others: World.Propositions, k: nat, id: Text)
    requires k <= |others|
    ensures var all, end := Keyed.Without(World.Id, others, id), Keyed.Without(World.Id, others[k..], id);
            |end| <= |all| && end == all[|all| - |end|..] && (k == 0 ==> end == all)
    ensures Keyed.Unique(World.Id, others) ==> |Keyed.Without(World.Id, others[k..], id)| >= |others| - k - 1
  {
    assert others == others[..k] + others[k..];
    assert k == 0 ==> others[k..] == others;
    WithoutConcat(others[..k], others[k..], id);
    hide Keyed.Without;
    if Keyed.Unique(World.Id, others) {
      EndUnique(others, k);
      Keyed.WithoutUnique(World.Id, others[k..], id);
    }
    hide Keyed.Unique;
  }

  lemma EndUnique(others: World.Propositions, k: nat)
    requires k <= |others| && Keyed.Unique(World.Id, others)
    ensures Keyed.Unique(World.Id, others[k..])
  {
  }

  // What is left of the other records, `end`, with what was made of the items
  // and one more, cut to the capacity of the layer.
  lemma AllPromoted(before: World.Propositions, e: Event, items: seq<Json>, ids: set<Text>, item: Json,
                    p: World.WorldProposition, end: World.Propositions, made: World.Propositions, size: nat)
    requires |made| == |items| < MAX_WORLD_PROPOSITIONS_PER_LAYER && Observes(p, e, item)
    requires forall i :: 0 <= i < |items| ==> Observes(made[i], e, items[i])
    requires var rest := Others(before, ids);
             && |end| <= |rest| <= |before| && end == rest[|rest| - |end|..]
             && (|before| + |items| < MAX_WORLD_PROPOSITIONS_PER_LAYER ==> end == rest)
             && (Keyed.Unique(World.Id, before) && |end| < |rest| ==>
                   size == MAX_WORLD_PROPOSITIONS_PER_LAYER && |end| + |items| + 1 >= size)
    ensures Promoted(before, KeepLast(end + made + [p], MAX_WORLD_PROPOSITIONS_PER_LAYER), e, items + [item], ids)
  {
    hide *;
    var r := KeepLast(end + made + [p], MAX_WORLD_PROPOSITIONS_PER_LAYER);
    var rest := Others(before, ids);
    var kept := |r| - |items| - 1;
    CutParts(end, made, p, MAX_WORLD_PROPOSITIONS_PER_LAYER);
    EndOfEnd(rest, end, kept);
    MoreObserved(r, kept, made, p, e, items, item);
    IsPromoted(before, r, e, items + [item], ids, kept);
  }

  lemma MoreObserved(after: World.Propositions, kept: nat, made: World.Propositions, p: World.WorldProposition, e: Event,
                     items: seq<Json>, item: Json)
    requires |made| == |items| && |after| == kept + |items| + 1
    requires forall i :: 0 <= i < |items| ==> Observes(made[i], e, items[i]) && after[kept + i] == made[i]
    requires Observes(p, e, item) && after[kept + |items|] == p
    ensures forall i :: 0 <= i <= |items| ==> Observes(after[kept + i], e, (items + [item])[i])
  {
    hide Observes;
    forall i | 0 <= i <= |items| ensures Observes(after[kept + i], e, (items + [item])[i]) {
      if i < |items| {
        assert (items + [item])[i] == items[i] && Observes(made[i], e, items[i]);
      }
    }
  }

  lemma IsPromoted(before: World.Propositions, after: World.Propositions, e: Event, items: seq<Json>, ids: set<Text>,
                   kept: nat)
    requires items != [] && |after| == kept + |items| <= MAX_WORLD_PROPOSITIONS_PER_LAYER
    requires forall i :: 0 <= i < |items| ==> Observes(after[kept + i], e, items[i])
    requires var others := Others(before, ids);
             && kept <= |others| && after[..kept] == others[|others| - kept..]
             && (|before| + |items| <= MAX_WORLD_PROPOSITIONS_PER_LAYER ==> kept == |others|)
             && (Keyed.Unique(World.Id, before) && kept < |others| ==> |after| == MAX_WORLD_PROPOSITIONS_PER_LAYER)
    ensures Promoted(before, after, e, items, ids)
  {
    hide Observes, Others, Keyed.Unique;
  }

  // Only the other records lose to the capacity, and the oldest of them.
  lemma CutParts(end: World.Propositions, made: World.Propositions, p: World.WorldProposition, size: nat)
    requires |made| < size
    ensures var r := KeepLast(end + made + [p], size);
            var kept := |r| - |made| - 1;
            && 0 <= kept <= |end| && |r| <= size && r[..kept] == end[|end| - kept..]
            && (forall i :: 0 <= i < |made| ==> r[kept + i] == made[i]) && r[kept + |made|] == p
            && (kept < |end| ==> |r| == size)
  {
  }

  lemma EndOfEnd(rest: World.Propositions, end: World.Propositions, kept: nat)
    requires kept <= |end| <= |rest| && end == rest[|rest| - |end|..]
    ensures end[|end| - kept..] == rest[|rest| - kept..]
  {
  }

  // One more linked item.
  lemma PromotedMore(before: World.Propositions, after: World.Propositions, e: Event, items: seq<Json>, ids: set<Text>,
                     item: Json, p: World.WorldProposition)
    requires Promoted(before, after, e, items, ids) && |items| < MAX_WORLD_PROPOSITIONS_PER_LAYER
    requires Observes(p, e, item) && p.propositionId !in ids
    requires forall i :: 0 <= i < |items| ==> IsLinked(items[i], ids)
    ensures Promoted(before, World.Upsert(after, p), e, items + [item], ids + {p.propositionId})
  {
    hide Observes, Others, Keyed.Without, Keyed.Unique, IsLinked, KeepLast;
    var id, kept, others := p.propositionId, |after| - |items|, Others(before, ids);
    var made := after[kept..];
    var k := |others| - kept;
    OthersMore(before, ids, id);
    OthersMore(before, ids + {id}, id);
    WithoutEnd(others, k, id);
    assert after == after[..kept] + made;
    WithoutConcat(after[..kept], made, id);
    MadeStays(made, e, items, ids, id);
    var end := Keyed.Without(World.Id, others[k..], id);
    if Keyed.Unique(World.Id, before) {
      OthersUnique(before, ids);
    }
    AllPromoted(before, e, items, ids + {id}, item, p, end, made, |after|);
  }

  lemma MadeStays(made: World.Propositions, e: Event, items: seq<Json>, ids: set<Text>, id: Text)
    requires |made| == |items| && id !in ids
    requires forall i :: 0 <= i < |items| ==> IsLinked(items[i], ids) && Observes(made[i], e, items[i])
    ensures Keyed.Without(World.Id, made, id) == made
  {
    forall i | 0 <= i < |made| ensures World.Id(made[i]) != id {
      assert IsLinked(items[i], ids) && Observes(made[i], e, items[i]);
    }
    Keyed.WithoutElements(World.Id, made, id);
  }

  /* ---------------- the whole receipt ---------------- */

  predicate DistinctLinks(items: seq<Json>, ids: set<Text>) {
    forall i, j :: 0 <= i < j < |items| && IsLinked(items[i], ids) && IsLinked(items[j], ids) ==>
      Get(items[i].fields, PROPOSITION_ID) != Get(items[j].fields, PROPOSITION_ID)
  }

  function IdOf(item: Json): Json {
    if item.Obj? then Get(item.fields, PROPOSITION_ID) else Null
  }

  // The ids of linked items.
  function IdsOf(items: seq<Json>, ids: set<Text>): (r: set<Text>)
    ensures forall id :: id in r <==> id in ids && exists i :: 0 <= i < |items| && IdOf(items[i]) == Str(id)
  {
    set id | id in ids && exists i :: 0 <= i < |items| && IdOf(items[i]) == Str(id)
  }

  lemma PropositionIs(e: Event, item: Json, actionId: Option<Text>)
    requires item.Obj? && World.Proposition(e, item.fields, World.Observed, actionId).Ok?
    requires FromOption(actionId) == Get(e.payload, ACTION_ID)
    ensures var p := World.Proposition(e, item.fields, World.Observed, actionId).value;
            Observes(p, e, item) && Get(item.fields, PROPOSITION_ID) == Str(p.propositionId)
  {
  }

  lemma IdsOfMore(made: seq<Json>, item: Json, ids: set<Text>)
    requires IsLinked(item, ids)
    ensures IdsOf(made + [item], ids) == IdsOf(made, ids) + {Get(item.fields, PROPOSITION_ID).t}
  {
    hide Get;
    var more, id := made + [item], Get(item.fields, PROPOSITION_ID).t;
    assert more[|made|] == item && forall i :: 0 <= i < |made| ==> more[i] == made[i];
    forall x | x in IdsOf(more, ids) ensures x in IdsOf(made, ids) + {id} {
      var i :| 0 <= i < |more| && IdOf(more[i]) == Str(x);
      assert i < |made| ==> IdOf(made[i]) == Str(x);
    }
    forall x | x in IdsOf(made, ids) ensures x in IdsOf(more, ids) {
      var i :| 0 <= i < |made| && IdOf(made[i]) == Str(x);
      assert IdOf(more[i]) == Str(x);
    }
    assert IdOf(more[|made|]) == Str(id);
  }

  lemma NewId(made: seq<Json>, item: Json, rest: seq<Json>, ids: set<Text>)
    requires IsLinked(item, ids) && forall i :: 0 <= i < |made| ==> IsLinked(made[i], ids)
    requires DistinctLinks(made + ([item] + rest), ids)
    ensures var id := Get(item.fields, PROPOSITION_ID).t;
            && id !in IdsOf(made, ids) && IdsOf(made + [item], ids) == IdsOf(made, ids) + {id}
            && forall i :: 0 <= i < |made| ==> IsLinked(made[i], IdsOf(made, ids))
  {
    hide Get;
    IdsOfMore(made, item, ids);
    var all := made + ([item] + rest);
    assert all[|made|] == item && forall i :: 0 <= i < |made| ==> all[i] == made[i];
    forall i | 0 <= i < |made|
      ensures IdOf(made[i]) != Str(Get(item.fields, PROPOSITION_ID).t) && IsLinked(made[i], IdsOf(made, ids))
    {
      assert IsLinked(all[i], ids) && IsLinked(all[|made|], ids);
      assert IdOf(made[i]) == Str(Get(made[i].fields, PROPOSITION_ID).t);
    }
  }

  lemma FewerLinks(made: seq<Json>, item: Json, rest: seq<Json>, ids: set<Text>)
    requires DistinctLinks(made + ([item] + rest), ids)
    ensures DistinctLinks(made + rest, ids)
  {
    var all, fewer := made + ([item] + rest), made + rest;
    assert forall i :: 0 <= i < |made| ==> fewer[i] == all[i];
    assert forall i :: |made| <= i < |fewer| ==> fewer[i] == all[i + 1];
    hide IsLinked, Get;
  }

  lemma PromoteStep(now: World.Propositions, e: Event, items: seq<Json>, actionId: Option<Text>, ids: set<Text>)
    requires items != [] && World.Promote(now, e, items, actionId, ids).Ok?
    ensures LinkedItems(items, ids) == (if IsLinked(items[0], ids) then [items[0]] else []) + LinkedItems(items[1..], ids)
    ensures if IsLinked(items[0], ids) then
              items[0].Obj? && World.Proposition(e, items[0].fields, World.Observed, actionId).Ok? &&
              World.Promote(now, e, items, actionId, ids) ==
              World.Promote(World.Upsert(now, World.Proposition(e, items[0].fields, World.Observed, actionId).value), e,
                            items[1..], actionId, ids)
            else World.Promote(now, e, items, actionId, ids) == World.Promote(now, e, items[1..], actionId, ids)
  {
    hide World.Proposition, World.Upsert, Get;
  }

  // The loop over the items that are still to come.
  lemma {:induction false} PromoteIs(before: World.Propositions, now: World.Propositions, e: Event, made: seq<Json>,
                                     items: seq<Json>, actionId: Option<Text>, ids: set<Text>)
    requires FromOption(actionId) == Get(e.payload, ACTION_ID)
    requires AllLinked(made, ids) && Promoted(before, now, e, made, IdsOf(made, ids))
    requires DistinctLinks(made + items, ids) && |made + LinkedItems(items, ids)| <= MAX_WORLD_PROPOSITIONS_PER_LAYER
    requires World.Promote(now, e, items, actionId, ids).Ok?
    ensures var all := made + LinkedItems(items, ids);
            AllLinked(all, ids) &&
            Promoted(before, World.Promote(now, e, items, actionId, ids).value, e, all, IdsOf(all, ids))
    decreases |items|
  {
    hide Promoted, World.Promote, LinkedItems, IsLinked, Get, DistinctLinks, World.Proposition, World.Upsert, IdsOf;
    if items == [] {
      NothingLinked(now, e, actionId, ids);
      assert made + [] == made;
    } else {
      var item, rest := items[0], items[1..];
      PromoteStep(now, e, items, actionId, ids);
      assert items == [item] + rest;
      if IsLinked(item, ids) {
        OneLinked(before, now, e, made, item, rest, actionId, ids);
        var p := World.Proposition(e, item.fields, World.Observed, actionId).value;
        assert made + LinkedItems(items, ids) == (made + [item]) + LinkedItems(rest, ids);
        PromoteIs(before, World.Upsert(now, p), e, made + [item], rest, actionId, ids);
      } else {
        FewerLinks(made, item, rest, ids);
        assert [] + LinkedItems(rest, ids) == LinkedItems(rest, ids);
        PromoteIs(before, now, e, made, rest, actionId, ids);
      }
    }
  }

  predicate AllLinked(items: seq<Json>, ids: set<Text>) {
    forall i :: 0 <= i < |items| ==> IsLinked(items[i], ids)
  }

  lemma NothingLinked(now: World.Propositions, e: Event, actionId: Option<Text>, ids: set<Text>)
    ensures LinkedItems([], ids) == [] && World.Promote(now, e, [], actionId, ids) == Ok(now)
  {
  }

  lemma OneLinked(before: World.Propositions, now: World.Propositions, e: Event, made: seq<Json>, item: Json,
                  rest: seq<Json>, actionId: Option<Text>, ids: set<Text>)
    requires FromOption(actionId) == Get(e.payload, ACTION_ID)
    requires AllLinked(made, ids) && Promoted(before, now, e, made, IdsOf(made, ids))
    requires DistinctLinks(made + ([item] + rest), ids) && IsLinked(item, ids)
    requires |made| < MAX_WORLD_PROPOSITIONS_PER_LAYER && World.Proposition(e, item.fields, World.Observed, actionId).Ok?
    ensures var p := World.Proposition(e, item.fields, World.Observed, actionId).value;
            && AllLinked(made + [item], ids) && DistinctLinks((made + [item]) + rest, ids)
            && Promoted(before, World.Upsert(now, p), e, made + [item], IdsOf(made + [item], ids))
  {
    var p := World.Proposition(e, item.fields, World.Observed, actionId).value;
    PropositionIs(e, item, actionId);
    NewId(made, item, rest, ids);
    hide Promoted, Get, DistinctLinks, World.Proposition, World.Upsert, IdsOf, Observes;
    PromotedMore(before, now, e, made, IdsOf(made, ids), item, p);
    assert made + ([item] + rest) == (made + [item]) + rest;
  }

  /* ---------------- the receipt's own conditions ---------------- */

  // What an accepted receipt of one of the actions demands of its evidence.
  lemma ReceiptLinks(actions: seq<Actions.ActionRecord>, e: Event, trusted: bool)
    requires e.kind.ActionReceipt? && Actions.ReduceActions(actions, e, trusted).Ok?
    ensures Actions.GroundedIds(e.payload, trusted) == Ok(Actions.ReduceActions(actions, e, trusted).value.1)
    ensures Get(e.payload, ACTION_ID).Str?
  {
    hide Actions.ValidAction, Actions.ValidReceipt, Actions.GroundedIds, Keyed.Find, Keyed.Has, Keyed.Upsert, Blank,
         Actions.StatusOf, Actions.ReceiptSourceOk, Actions.LateFlagOk, Actions.NewReceipt, Actions.WithReceipt;
  }

  lemma GroundedIsLinked(e: Event, trusted: bool)
    requires Actions.GroundedIds(e.payload, trusted).Ok?
    ensures Actions.GroundedIds(e.payload, trusted).value == Linked(e, trusted)
    ensures |Linked(e, trusted)| <= MAX_WORLD_PROPOSITIONS_PER_LAYER
    ensures Linked(e, trusted) != {} ==>
              && DistinctLinks(Observations(e), Linked(e, trusted))
              && forall id :: id in Linked(e, trusted) ==> Bears(Observations(e), id)
  {
    hide Blank;
  }

  lemma {:induction false} LinkedBound(items: seq<Json>, ids: set<Text>)
    requires DistinctLinks(items, ids)
    ensures |LinkedItems(items, ids)| <= |ids|
    decreases |items|
  {
    if items != [] {
      var rest := items[1..];
      assert items == [] + ([items[0]] + rest);
      FewerLinks([], items[0], rest, ids);
      assert [] + rest == rest;
      if IsLinked(items[0], ids) {
        var id := Get(items[0].fields, PROPOSITION_ID).t;
        OtherLinks(items, rest, ids, id);
        LinkedBound(rest, ids - {id});
      } else {
        LinkedBound(rest, ids);
      }
    }
  }

  // The other items do not link the id of the first.
  lemma OtherLinks(items: seq<Json>, rest: seq<Json>, ids: set<Text>, id: Text)
    requires items != [] && rest == items[1..] && DistinctLinks(items, ids)
    requires IsLinked(items[0], ids) && IdOf(items[0]) == Str(id)
    ensures LinkedItems(rest, ids) == LinkedItems(rest, ids - {id}) && DistinctLinks(rest, ids - {id})
  {
    forall i | 0 <= i < |rest| ensures IsLinked(rest[i], ids) <==> IsLinked(rest[i], ids - {id}) {
      assert rest[i] == items[i + 1];
    }
    assert forall i :: 0 <= i < |rest| ==> rest[i] == items[i + 1];
    SameLinks(rest, ids, ids - {id});
    hide Get;
  }

  lemma {:induction false} SameLinks(items: seq<Json>, a: set<Text>, b: set<Text>)
    requires forall i :: 0 <= i < |items| ==> (IsLinked(items[i], a) <==> IsLinked(items[i], b))
    ensures LinkedItems(items, a) == LinkedItems(items, b)
  {
    hide IsLinked;
    if items != [] {
      SameLinks(items[1..], a, b);
    }
  }

  // Whether one of the items bears the id.
  predicate Bears(items: seq<Json>, id: Text) {
    exists i :: 0 <= i < |items| && IdOf(items[i]) == Str(id)
  }

  lemma BearsCons(item: Json, rest: seq<Json>, id: Text)
    ensures Bears([item] + rest, id) <==> IdOf(item) == Str(id) || Bears(rest, id)
  {
    var all := [item] + rest;
    assert all[0] == item;
    if Bears(rest, id) {
      var i :| 0 <= i < |rest| && IdOf(rest[i]) == Str(id);
      assert all[i + 1] == rest[i];
    }
    if Bears(all, id) && IdOf(item) != Str(id) {
      var i :| 0 <= i < |all| && IdOf(all[i]) == Str(id);
      assert all[i] == rest[i - 1];
    }
  }

  // Every id that is borne is borne by a linked item.
  lemma {:induction false} LinksFound(items: seq<Json>, ids: set<Text>, id: Text)
    requires id in ids && Bears(items, id)
    ensures Bears(LinkedItems(items, ids), id)
  {
    var item, rest := items[0], items[1..];
    assert items == [item] + rest;
    BearsCons(item, rest, id);
    BearsCons(item, LinkedItems(rest, ids), id);
    assert [] + LinkedItems(rest, ids) == LinkedItems(rest, ids);
    if IdOf(item) != Str(id) {
      LinksFound(rest, ids, id);
    }
    hide Bears;
  }

  // An accepted receipt leaves the other layers alone; trusted, it makes every
  // observation that it links part of the observed layer, as the newest of it
  // and as the receipt describes it; otherwise it leaves that layer alone too.
  lemma ReceiptPromotes(s: BrainState, e: Event)
    requires e.kind.ActionReceipt? && ReduceState(s, e).Ok?
    ensures Grounds(s.world, ReduceState(s, e).value.world, e, Linked(e, Trusted(s, e)))
  {
    hide *;
    ReducedActions(s, e);
    ReceiptLinks(s.actions, e, Trusted(s, e));
    GroundedIsLinked(e, Trusted(s, e));
    WorldPromotes(s.world, e, Trusted(s, e), Linked(e, Trusted(s, e)));
  }

  ghost predicate Grounds(before: World.WorldModel, after: World.WorldModel, e: Event, ids: set<Text>) {
    var items := LinkedItems(Observations(e), ids);
    && after.believed == before.believed && after.simulated == before.simulated && after.ideal == before.ideal
    && (ids == {} ==> after.observed == before.observed)
    && (ids != {} ==> Promoted(before.observed, after.observed, e, items, ids))
    && (forall id :: id in ids ==> Bears(items, id))
  }

  lemma ReceiptIs(w: World.WorldModel, e: Event, trusted: bool, ids: set<Text>)
    requires e.kind.ActionReceipt? && World.ReduceWorld(w, e, trusted, ids).Ok? && Get(e.payload, ACTION_ID).Str?
    requires ids != {}
    ensures var r := World.Promote(w.observed, e, Observations(e), Some(Get(e.payload, ACTION_ID).t), ids);
            r.Ok? && World.ReduceWorld(w, e, trusted, ids) == Ok(w.(observed := r.value))
  {
    hide World.Promote, Get;
  }

  lemma FirstPromoted(observed: World.Propositions, e: Event, ids: set<Text>)
    ensures Promoted(observed, observed, e, [], IdsOf([], ids)) && AllLinked([], ids)
  {
    OthersNone(observed);
    assert IdsOf([], ids) == {};
    hide Others, Keyed.Unique;
    assert observed[..|observed|] == observed && observed[0..] == observed;
  }

  // The whole loop, from the layer before the receipt.
  lemma LoopPromotes(observed: World.Propositions, e: Event, items: seq<Json>, actionId: Option<Text>, ids: set<Text>)
    requires FromOption(actionId) == Get(e.payload, ACTION_ID) && DistinctLinks(items, ids)
    requires |ids| <= MAX_WORLD_PROPOSITIONS_PER_LAYER && World.Promote(observed, e, items, actionId, ids).Ok?
    requires forall id :: id in ids ==> Bears(items, id)
    ensures var links := LinkedItems(items, ids);
            && Promoted(observed, World.Promote(observed, e, items, actionId, ids).value, e, links, ids)
            && forall id :: id in ids ==> Bears(links, id)
  {
    hide Promoted, World.Promote, LinkedItems, DistinctLinks, Get, IdOf, Bears, IdsOf;
    var links := LinkedItems(items, ids);
    LinkedBound(items, ids);
    forall id | id in ids ensures Bears(links, id) {
      LinksFound(items, ids, id);
    }
    FirstPromoted(observed, e, ids);
    assert [] + items == items && [] + links == links;
    PromoteIs(observed, observed, e, [], items, actionId, ids);
    AllBorne(links, ids);
  }

  lemma AllBorne(links: seq<Json>, ids: set<Text>)
    requires forall id :: id in ids ==> Bears(links, id)
    ensures IdsOf(links, ids) == ids
  {
    forall id | id in ids ensures id in IdsOf(links, ids) {
      assert Bears(links, id);
    }
  }

  lemma WorldPromotes(w: World.WorldModel, e: Event, trusted: bool, ids: set<Text>)
    requires e.kind.ActionReceipt? && World.ReduceWorld(w, e, trusted, ids).Ok? && Get(e.payload, ACTION_ID).Str?
    requires |ids| <= MAX_WORLD_PROPOSITIONS_PER_LAYER
    requires ids != {} ==>
               && DistinctLinks(Observations(e), ids)
               && forall id :: id in ids ==> Bears(Observations(e), id)
    ensures Grounds(w, World.ReduceWorld(w, e, trusted, ids).value, e, ids)
  {
    hide World.Promote, Get, DistinctLinks, Promoted, LinkedItems, Observations, IdOf, Bears;
    if ids != {} {
      ReceiptIs(w, e, trusted, ids);
      LoopPromotes(w.observed, e, Observations(e), Some(Get(e.payload, ACTION_ID).t), ids);
    }
    hide World.Ground;
  }

  /* ---------------- which evidence is accepted ---------------- */

  // Observations that can be read: objects with distinct non-blank ids.
  predicate ObservationsGiven(items: seq<Json>) {
    && (forall i :: 0 <= i < |items| ==> items[i].Obj? && IdOf(items[i]).Str? && !Blank(IdOf(items[i]).t))
    && (forall i, j :: 0 <= i < j < |items| ==> IdOf(items[i]) != IdOf(items[j]))
  }

  lemma {:induction false} ObservationsRead(items: seq<Json>)
    ensures Actions.ObservationIds(items).Some? <==> ObservationsGiven(items)
    ensures Actions.ObservationIds(items).Some? ==>
              forall i :: 0 <= i < |items| ==> IdOf(items[i]) == Str(Actions.ObservationIds(items).value[i])
  {
    hide Blank;
    if items != [] {
      var front, item := items[..|items| - 1], items[|items| - 1];
      ObservationsRead(front);
      assert forall i :: 0 <= i < |front| ==> front[i] == items[i];
      if ObservationsGiven(front) && item.Obj? && IdOf(item).Str? {
        var ids := Actions.ObservationIds(front).value;
        assert IdOf(item).t in ids <==> exists i :: 0 <= i < |front| && IdOf(front[i]) == IdOf(item);
      }
    }
  }

  // No evidence, or evidence that links observations: distinct non-blank ids,
  // no more than the layer holds, each of one of the observations supplied,
  // which then has content.
  predicate EvidenceGiven(p: Payload) {
    var evidence, observations := Get(p, EFFECT_EVIDENCE), Get(p, OBSERVATIONS);
    evidence.Null? ||
    (&& evidence.Obj? && Get(evidence.fields, KIND) == Str(LINKED_OBSERVATION)
     && IsTextArray(Get(evidence.fields, OBSERVATION_IDS))
     && var ids := Texts(Get(evidence.fields, OBSERVATION_IDS));
        && 1 <= |ids| <= MAX_WORLD_PROPOSITIONS_PER_LAYER && NoDuplicates(ids)
        && (forall i :: 0 <= i < |ids| ==> !Blank(ids[i]))
        && observations.Arr? && ObservationsGiven(observations.items)
        && (forall i :: 0 <= i < |ids| ==> Bears(observations.items, ids[i]))
        && (forall j :: 0 <= j < |observations.items| && IdOf(observations.items[j]).t in ids ==>
              Get(observations.items[j].fields, CONTENT).Obj?))
  }

  lemma EvidenceExact(p: Payload, trusted: bool)
    ensures Actions.GroundedIds(p, trusted).Ok? <==> EvidenceGiven(p)
  {
    hide Blank, NoDuplicates;
    var evidence, observations := Get(p, EFFECT_EVIDENCE), Get(p, OBSERVATIONS);
    if evidence.Obj? && observations.Arr? {
      ObservationsRead(observations.items);
      var ids := Get(evidence.fields, OBSERVATION_IDS);
      if IsTextArray(ids) && Actions.ObservationIds(observations.items).Some? {
        LinkedAreSupplied(Texts(ids), observations.items);
      }
    }
    hide Get, Actions.ObservationIds, ObservationsGiven, Bears;
  }

  lemma LinkedAreSupplied(ids: seq<Text>, items: seq<Json>)
    requires Actions.ObservationIds(items).Some? && ObservationsGiven(items)
    ensures var supplied := Actions.ObservationIds(items).value;
            && (forall i :: 0 <= i < |ids| ==> (ids[i] in supplied <==> Bears(items, ids[i])))
            && (forall j :: 0 <= j < |items| ==> IdOf(items[j]).t == supplied[j] && items[j].Obj?)
  {
    ObservationsRead(items);
    var supplied := Actions.ObservationIds(items).value;
    hide Actions.ObservationIds, Blank;
    forall i | 0 <= i < |ids| ensures ids[i] in supplied <==> Bears(items, ids[i]) {
      if ids[i] in supplied {
        var j :| 0 <= j < |supplied| && supplied[j] == ids[i];
        assert IdOf(items[j]) == Str(ids[i]);
      }
    }
  }
}
