# Verification of Alice-brain-Hermes

A Dafny model of the runtime of Alice-brain-Hermes and proofs about it. The
runtime folds events into one large state, fed by a capture pipeline that must
lose nothing silently. `dafny verify dfyconfig.toml` checks everything.

The modules follow the program:

- **Reducer.** `State` holds the brain state and its validator, `Reducer` the
  fold, and `Identity`, `Personality`, `Actions`, `World`, `Workspace` and
  `Cognition` the parts. `ReducerInvariant` proves the whole validator
  inductive once actor ids are unique. `ActionHistory` and `ActionRuns` follow
  the receipts of an action over a run, `EnergyRuns` the energy assessments,
  `RateLimit` the token buckets, `Grounding` provenance, `RunTotals` what a run
  adds up to and where each recording event is found, `RawCounts` the table of
  event counts. `ReducerAcceptance` and `Acceptance` say what the reducer
  accepts; `ReadBack`, `Lifecycles`, `Evictions`, `Promotions` and `Refills`
  what an accepted event leaves: the records, an action's fields, the actions
  kept, the observed layer and the buckets. `Specialists`, `Bids` and `Pulse`
  cover a whole pulse.
- **Compiler.** `SemanticIngest` is the table of spans and the plans, and
  `Plans` says what the plans of tool hooks tell.
  `PlanAcceptance` and `SemanticCommit` decide which plans the reducer accepts.
  `StoreCommit` adds the envelope, screening and the fallback to a gap,
  `CommitAck` the acknowledgement, `Frames` the stored frame and the brain's
  observability row, `SpanTable` the table of spans over runs of commits.
  `Statuses` decides which records are applied, and `Calls` follows a tool call
  from its first hook to its last.
- **Capture.** `CaptureItems` has tilings and merged stores, `Bridge` the
  bridge, `Delivery` the bridge with its server, `Bootstrap` and
  `BootstrapBooks` the bootstrap buffer, `Handoff` the two joined, `EndToEnd`
  the way from callback to server, `Streams` the bridge against the store's own
  decisions, `Selection` the worker's selection with captures in between.
  `Captures` and `BootstrapCaptures` say what becomes of a capture.
- **Runtime.** `Engine` works over a shared ledger; `Snapshot` is the
  checkpointing worker; `Teardown` is the close of the daemon.
- **Edge.** `Framing` reads lines, `Trees` and `Responses` measure JSON,
  `TracePage` builds pages.

Code that updates state in place appears twice: as a class whose methods change
their fields, and as functions on the state, which each method is proved equal
to and about which the theorems speak.

## Findings

- The state validator is not inductive by itself. A valid state may hold two
  records of one non-self actor id; registering that id again is accepted by
  every sub-reducer and then refused by the validator
  (`ReducerInvariant.SharedIdIsRefused`). An event breaks the validator exactly
  when it replaces more than one record (`ReducerInvariant.ReductionStaysValid`).
  No reachable state holds such records.
- A pulse also needs non-blank ids in the previous broadcast, since the memory
  specialist cites them and the reducer accepts blank ones
  (`Pulse.BlankBidStopsThePulse`).
- Two kinds of legal observations are refused by the store at the cursor. The
  envelope refuses an empty or blank session, turn or API request id, although
  the host sends empty ones on purpose (`protocol/models.py:146-150`), and the
  span of a tool or API call hook without an identifier cannot be built while a
  slot is free (`StoreCommit.CommitExact`, `SpanTable.TakesExact`). The bridge
  keeps retrying the retained record: nothing behind it is ever delivered
  (`Streams.StuckForever`, with witnesses in `Streams.LegalCapturesStayForever`).
  Within the byte limits listed below, any other record that is first in line is
  delivered in the next connected round (`Streams.RoundDelivers`).
- The worker looks at the queue before it takes the capture lock. If nothing
  waits then, and an observation and a later gap are captured before the claim,
  it retains the gap. The server refuses it as out of order, and the bridge
  refuses the server's cursor: nothing is delivered again
  (`Selection.SelectionExact`, `Selection.WedgedForever`, with the run in
  `Selection.TwoCapturesWedge`). What was delivered stays exactly once and in
  order (`Selection.StillExactlyOnce`).
- A late plan is accepted exactly when the action has a receipt in its history
  (`SemanticCommit.LatePlanDecided`). Dispatch alone is not enough
  (`SemanticCommit.DispatchIsNotEnough`), and neither is an action that a gap
  left prepared.
- Without a retained record, a bridge accepts the server's cursor only if
  nothing waits (`Delivery.AttachWhenIdle`). The worker selects before it
  connects, so this refusal by itself only costs a round.
- A close that fails while another runtime's owner holds the registry entry of
  the home leaves its own owner unretained (`Teardown.OwnerCanBeLost`,
  `Teardown.FailedCloseRetained`).
- The reducer's branch that drops the oldest energy vector is dead
  (`EnergyRuns.OverflowNeverTaken`).

## Assumptions

- The ledger and the bridge server follow `runtime/store.py`: transactions are
  atomic, events are numbered from one, a record is accepted at the cursor, the
  exact repeat of a stored record returns the stored acknowledgement. A failed
  checkpoint stores nothing.
- Outside `Selection`, selection in the bridge is one step. `Selection.RunSound`
  says for which runs that is justified.
- The handoff and end-to-end theorems are about one buffer and one bridge whose
  stream is not rotated. The server keeps its cursor across reconnections.
- Snapshots are written only by the worker, and a sequence told at registration
  is that of the newest one.
- Other writers do not move the actions of a stream's open tool spans, which
  are named after that stream's own raw events. New identifiers are new.

## Model

| member | source | states |
|---|---|---|
| `State.GenesisInv` | src/alice_brain_hermes/core/state.py:314-320 | the genesis state of any brain satisfies the whole state invariant |
| `ReducerInvariant.ReductionStaysValid` | src/alice_brain_hermes/core/reducer.py:183-523 | from any valid state, the state after an accepted event passes the validator if and only if the event replaces at most one actor record; no other accepted event can break any accounting equation, bound, uniqueness, subset or clock fact |
| `ReducerInvariant.ReductionKeepsInv` | src/alice_brain_hermes/core/state.py:201-311 | the validator's facts together with unique actor ids are kept by every accepted event |
| `ReducerInvariant.RunKeepsInv` | src/alice_brain_hermes/core/reducer.py:526-531 | the invariant holds after every accepted run from any state that has it |
| `ReducerInvariant.ReachableInv` | src/alice_brain_hermes/core/state.py:201-311 | every state reachable from genesis satisfies the whole invariant |
| `ReducerInvariant.CountEventCore` | src/alice_brain_hermes/core/reducer.py:199-220 | counting an event, with the events of an entry that leaves a full table added to the evicted ones, keeps raw-count conservation and every other fact of the validator |
| `RawCounts.ReachableCounts` | src/alice_brain_hermes/core/reducer.py:199-220 | in every reachable state the raw counts stand in name order, one entry a name, and each counts exactly the events of its name since the name was last admitted |
| `RawCounts.CountedOrdered` | src/alice_brain_hermes/core/reducer.py:203-220 | one event keeps the table in name order, so the entry that leaves a full table is the first by name |
| `ReducerInvariant.ActionsCore` | src/alice_brain_hermes/core/reducer.py:246-287 | admitting an action, with its eviction and that of its energy vector, keeps the counters exact and energy ids among action ids |
| `ReducerInvariant.AssessmentFits` | src/alice_brain_hermes/core/reducer.py:413-433 | an accepted assessment concerns a retained action, so the vectors after it are distinct, belong to retained actions and fit their capacity |
| `ReducerInvariant.SharedIdIsRefused` | src/alice_brain_hermes/core/reducer.py:523 | the failing family: whenever two non-self records share an id, registering that id again is accepted by every sub-reducer and yields a state the validator refuses |
| `ReducerInvariant.SharedActorsValid` | src/alice_brain_hermes/core/identity.py:99-114 | such a state exists: a valid state with two records of one id |
| `Reducer.ReduceAll` | src/alice_brain_hermes/core/reducer.py:526-531 | the loop returns the first refusal or the fold of all events |
| `Reducer.ReduceManyConcat` | src/alice_brain_hermes/core/reducer.py:526-531 | reducing a run is reducing its first part and then the rest from there |
| `Reducer.FirstTerminal` | src/alice_brain_hermes/core/reducer.py:256-272 | the action to evict is the first that is blocked or reconstructed without a pending assessment; every earlier one is not, and none is chosen only if there is none |
| `Evictions.ProposalRetains` | src/alice_brain_hermes/core/reducer.py:246-287 | after an accepted proposal the actions are the old ones in their order and the new one last; if there were 256, the oldest blocked or reconstructed one without a pending assessment is gone, and no other |
| `Evictions.StepRetains` | src/alice_brain_hermes/core/action.py:540-594 | any other lifecycle event steps the one action it names, which becomes the last, and leaves the others in their order; other events leave all actions alone |
| `Evictions.NoRoom` | src/alice_brain_hermes/core/reducer.py:256-270 | a full table in which no action may leave refuses every proposal |
| `ReducerAcceptance.CommonExact` | src/alice_brain_hermes/core/reducer.py:222-330 | the common part accepts an event if and only if every sub-reducer accepts it on the components of the state before the event and the retained actions can make room |
| `Acceptance.PlacingAccepted` | src/alice_brain_hermes/core/world.py:84-131 | an observation, belief or ideal is accepted if and only if it carries a non-blank id, an object and a confidence between zero and one, or is an untrusted observation |
| `Acceptance.SimulationAccepted` | src/alice_brain_hermes/core/reducer.py:156-180 | a simulation is accepted if and only if it carries such a proposition and reads as a branch |
| `Acceptance.MemoryAccepted` | src/alice_brain_hermes/core/reducer.py:127-142 | a memory is accepted if and only if it has an id, an object, a salience between zero and one and, if any, a list of source ids |
| `Acceptance.ActorAccepted` | src/alice_brain_hermes/core/identity.py:151-189 | a registration is accepted if and only if the actor can be read, the self id goes with the self kind, it is not its own parent, and it is known or there is room |
| `Acceptance.AuthorizationAccepted` | src/alice_brain_hermes/core/identity.py:190-213 | an authorization is accepted if and only if the self actor grants a named pair that is known or for which there is room |
| `Acceptance.BroadcastAccepted` | src/alice_brain_hermes/core/reducer.py:101-124 | a broadcast is accepted if and only if it holds readable candidates of the next cycle, no more than the capacity, none worse than a later one in score, name and id, and no two of one content; it is then what the workspace holds |
| `Acceptance.TickAccepted` | src/alice_brain_hermes/core/reducer.py:335-358 | a tick is accepted if and only if its elapsed time is a number that is not negative |
| `Acceptance.NamingAccepted` | src/alice_brain_hermes/core/reducer.py:329-334 | a naming event is accepted if and only if its name is a text with something in it |
| `Acceptance.CapabilitiesAccepted` | src/alice_brain_hermes/core/reducer.py:359-371 | reported capabilities are accepted if and only if they are an object of at most 256 fields |
| `Acceptance.FailureAccepted` | src/alice_brain_hermes/core/reducer.py:145-153 | a failure is accepted if and only if it names its error type, message and phase |
| `SemanticCommit.SequenceAdvances` | src/alice_brain_hermes/core/reducer.py:183-221 | an accepted sequenced event is the next one after the state and becomes its newest |
| `RunTotals.RunAddsUp` | src/alice_brain_hermes/core/reducer.py:183-531 | over every run the counters are the numbers of events of their kind, the clock the sum of the ticks, the failure streak and health those since the last recovery, and the trace is complete exactly if it was and no gap came |
| `RunTotals.TrustExact` | src/alice_brain_hermes/core/identity.py:131-138 | after an event another event is trusted if and only if it was before or the event granted exactly its actor and adapter |
| `RunTotals.ActorsExact` | src/alice_brain_hermes/core/identity.py:144-190 | a registered actor is found with what was registered, in place of its namesakes, and no other event changes the actors |
| `RunTotals.PlacedWhereItBelongs` | src/alice_brain_hermes/core/world.py:76-135 | an event that fixes a layer puts its proposition there as the newest and touches no other layer; an untrusted observation puts it nowhere |
| `ReadBack.PropositionRecorded` | src/alice_brain_hermes/core/world.py:107-131 | the proposition of an event that fixes a layer, with its content and confidence, is the newest of exactly the last 256 of the layer in their order, in place of its namesake |
| `RunTotals.MemoryIsNewest` | src/alice_brain_hermes/core/reducer.py:127-142 | a recorded memory is the newest, takes the place of its namesake, and drives out others only when there is no room |
| `ReadBack.MemoryRecorded` | src/alice_brain_hermes/core/reducer.py:127-142 | over the whole reducer the memories are exactly the last 256 of the old ones in their order and the new one, field by field, in place of its namesake; other events leave them alone |
| `ReadBack.SimulationRecorded` | src/alice_brain_hermes/core/reducer.py:434-449 | a simulation is, field by field and default by default, the newest of exactly the last 256 thoughts |
| `ReadBack.ReflectionRecorded` | src/alice_brain_hermes/core/reducer.py:450-473 | a reflection is the newest of exactly the last 128 |
| `ReadBack.AssessmentRecorded` | src/alice_brain_hermes/core/personality.py:387-420 | every dimension of the newest energy vector is the number that the event gives under its own name, and the vector takes the place of its namesake |
| `ReadBack.NameRecorded` | src/alice_brain_hermes/core/reducer.py:329-334 | after a name event brain and identity bear the name it gives |
| `ReadBack.CapabilitiesRecorded` | src/alice_brain_hermes/core/reducer.py:359-371 | the capabilities are those last reported |
| `ReadBack.RuntimeRecorded` | src/alice_brain_hermes/core/reducer.py:505-521 | the last failure and the last elapsed time are those of the last such event and of no other |
| `ReadBack.ActionCounts` | src/alice_brain_hermes/core/reducer.py:246-279 | the working set counts an action as admitted exactly when it is proposed |
| `ReadBack.MemoryCounts` | src/alice_brain_hermes/core/reducer.py:127-142 | and a memory exactly when its id is new |
| `Identity.IdentityKept` | src/alice_brain_hermes/core/identity.py:151-213 | an accepted event keeps the one exact self actor and the capacities, removes no authorization, and adds one only when the self actor authored it |
| `Identity.OneSelfIsBoundary` | src/alice_brain_hermes/core/identity.py:99-114 | the validator's boundary is: one record with the self id, one of kind self, and they are the same |
| `World.WorldKept` | src/alice_brain_hermes/core/world.py:116-155 | reduction keeps every layer bounded and well formed, adds only propositions of the event's own actor, and changes the observed layer only for a trusted event |
| `Promotions.ReceiptPromotes` | src/alice_brain_hermes/core/world.py:132-153 | a trusted receipt puts every observation that it links into the observed layer, as the newest and in its order, with the content, confidence, event, actor and action it gives; the others keep their order, all while there is room, and only a full layer loses its oldest; no other layer changes |
| `Promotions.EvidenceExact` | src/alice_brain_hermes/core/action.py:472-524 | evidence is accepted if and only if there is none, or it links distinct non-blank ids, no more than the layer holds, of observations supplied with distinct non-blank ids, which have content where linked |
| `Grounding.ReachableObservedGrounded` | src/alice_brain_hermes/core/world.py:116-155 | in every reachable state each observed proposition comes from the self actor or an authorized one |
| `Grounding.ReducedAuthority` | src/alice_brain_hermes/core/identity.py:190-211 | one event removes no authorization and adds at most one, which the self actor must have authored |
| `Grounding.RunGrants` | src/alice_brain_hermes/core/identity.py:190-211 | over any run, every authorization present at the end was there at the start or was granted in the run by an event of the self actor |
| `Grounding.EffectNeedsTrustedReceipt` | src/alice_brain_hermes/core/action.py:472-524 | an action is effect-confirmed in a reachable state only if some receipt event for it in the history was trusted when reduced and linked observations |
| `ActionHistory.StepExact` | src/alice_brain_hermes/core/action.py:595-819 | every lifecycle and energy event on an action in order is accepted if and only if its guards hold, so the record validator never refuses a transition the guards allow, and leaves the action in order and in agreement with its receipts |
| `Lifecycles.StepDoes` | src/alice_brain_hermes/core/action.py:595-819 | an accepted event moves exactly the fields its kind says: phase and history, branch, execution, energy evidence or the newest sixteen reconstructions; the receipts are the subject of ActionRuns.RunTracked and everything else stays |
| `ActionHistory.ReceiptAccepted` | src/alice_brain_hermes/core/action.py:681-768 | a receipt is accepted if and only if its fields are in order and the action was dispatched, in the receipt phase or after reconstruction |
| `ActionHistory.LateOnBlocked` | src/alice_brain_hermes/core/action.py:323-408 | the one place where the record validator is needed: it refuses a late receipt of a reconstructed action that had been blocked |
| `ActionHistory.DefinitiveSplit` | src/alice_brain_hermes/core/action.py:527-539 | receipts with a known status are exactly the one that set the outcome, the corroborations and the conflicts |
| `ActionHistory.OutcomeFinal` | src/alice_brain_hermes/core/action.py:527-539 | once an outcome is set, no later receipts change it or the canonical receipt |
| `ActionRuns.RunTracked` | src/alice_brain_hermes/core/action.py:681-768 | over every run each retained action agrees with its whole receipt log: outcome of the first known receipt, canonical receipt, newest sixteen kept, counters for the rest |
| `ActionRuns.ReachableAction` | src/alice_brain_hermes/core/action.py:322-354 | in every reachable state the receipts seen are the kept plus the evicted, and the known ones are the outcome, the corroborations and the conflicts; no action is both blocked and dispatched |
| `EnergyRuns.EnergyKept` | src/alice_brain_hermes/core/reducer.py:374-433 | an accepted event keeps energy vectors and assessed actions naming each other exactly, through request, assessment, failure, reassessment and eviction |
| `EnergyRuns.ReachableEnergyExact` | src/alice_brain_hermes/core/action.py:595-648 | in every reachable state the energy vectors are exactly those of the actions whose status is assessed |
| `EnergyRuns.OverflowNeverTaken` | src/alice_brain_hermes/core/reducer.py:424-426 | the branch that would drop the oldest vector is never taken |
| `Personality.AdvancedBucket` | src/alice_brain_hermes/core/personality.py:94-118 | advancing a bucket leaves a valid bucket of the same policy at the target time that holds what it held and rate times time, up to its capacity |
| `Personality.CollectRevision` | src/alice_brain_hermes/core/personality.py:352-372 | the loop merges every update over the current values and charges the sum of the absolute changes, or refuses if any value is not a number in range |
| `Personality.CollectMeaning` | src/alice_brain_hermes/core/personality.py:352-372 | whatever the iteration order, the merged map has the updated keys with their new values and the others unchanged, and the cost is the distance moved |
| `Personality.ActivationExact` | src/alice_brain_hermes/core/personality.py:288-306 | for the dimensions of an accepted assessment the activation is the weighted sum, or zero when the cost outweighs the rest; it never exceeds 0.95, so the upper bound is never taken |
| `Personality.AcceptedDimensions` | src/alice_brain_hermes/core/personality.py:387-409 | an accepted assessment has every dimension within its bounds |
| `Personality.ActivationMonotone` | src/alice_brain_hermes/core/personality.py:288-306 | more of any dimension but cost never lowers the activation |
| `Personality.ActivationEnds` | src/alice_brain_hermes/core/personality.py:288-306 | the neutral vector has activation 0.285, and 0.95 is reached exactly with every dimension at its best |
| `Personality.ActivationWeights` | src/alice_brain_hermes/core/personality.py:288-306 | how much one dimension more changes the weighted sum, dimension by dimension |
| `Personality.DeficitsCount` | src/alice_brain_hermes/core/personality.py:288-306 | equal deficits count 0.18 times their value, however many there are, and none count nothing |
| `RateLimit.RevisionPays` | src/alice_brain_hermes/core/personality.py:329-384 | a revision moves the values by no more than it pays for |
| `RateLimit.StepBound` | src/alice_brain_hermes/core/personality.py:120-131 | in one accepted event a layer moves by at most what leaves its bucket plus refill times the elapsed logical time |
| `RateLimit.RateBound` | src/alice_brain_hermes/core/personality.py:94-131 | between any two points of an accepted run the total movement of a layer is at most its availability at the start plus refill times elapsed time, less what is left, with availability always between zero and capacity |
| `RateLimit.DriftBound` | src/alice_brain_hermes/core/personality.py:329-384 | the distance between the two ends of a run is at most the total movement, hence bounded the same way |
| `RateLimit.AdvanceTwice` | src/alice_brain_hermes/core/personality.py:94-118 | advancing through an intermediate time is advancing once |
| `RateLimit.TickSplit` | src/alice_brain_hermes/core/personality.py:94-118 | however a stretch of time is cut, one bucket ends the same, and the cuts are accepted if and only if they are in order |
| `RateLimit.TicksAdvance` | src/alice_brain_hermes/core/reducer.py:335-358 | an accepted run of tick events is one advance of all three buckets by the sum of the elapsed times |
| `RateLimit.TicksSplit` | src/alice_brain_hermes/core/personality.py:315-326 | two accepted runs of ticks over the same total time end with the same clock and the same personality |
| `Refills.TicksRefill` | src/alice_brain_hermes/core/reducer.py:335-358 | after any accepted ticks each layer holds what it held and its rate times the elapsed time, up to its brim, and no value has moved |
| `Refills.RevisionDecided` | src/alice_brain_hermes/core/personality.py:329-384 | a revision is accepted if and only if it gives numbers in range under non-blank names, fits, and moves the values by no more than the bucket holds; then the named values are the new ones and that price is paid |
| `Refills.RevisionAfterTicks` | src/alice_brain_hermes/core/personality.py:329-384 | after any accepted ticks a readable revision is accepted if and only if its price is at most what the layer held and what has run in since, up to the brim |
| `Refills.EmptiedLayerRecovers` | src/alice_brain_hermes/core/personality.py:18-22 | an emptied layer pays its whole brim again after a second of ticks, and never more |
| `Refills.FullAgain` | src/alice_brain_hermes/core/personality.py:94-118 | a bucket is full again exactly when the time at its rate makes up what it lacks |
| `Workspace.ChooseBroadcast` | src/alice_brain_hermes/core/workspace.py:100-127 | the loop and sort return the selection, in which no bid is worse than a later one in score, name and id |
| `Workspace.BroadcastMeaning` | src/alice_brain_hermes/core/workspace.py:99-127 | the broadcast has at most capacity members with distinct contents in rank order, each the best bid for its content; a content is left out only when the broadcast is full of bids it does not outrank |
| `Workspace.BroadcastByScore` | src/alice_brain_hermes/core/workspace.py:100-127 | scores do not increase along the broadcast and ties go by specialist name and then id; a member is no worse than any bid of its content; a content is left out only of a full broadcast, and only if no bid of it is better than a member |
| `Workspace.BroadcastFixedPoint` | src/alice_brain_hermes/core/reducer.py:101-124 | selection changes nothing exactly on the bounded, deduplicated and ranked sequences, which are therefore the broadcasts the reducer accepts |
| `Workspace.BroadcastIdempotent` | src/alice_brain_hermes/core/workspace.py:99-127 | selecting from a selection gives it back |
| `Workspace.RanksWeakOrder` | src/alice_brain_hermes/core/workspace.py:115-126 | the sort key is a weak order |
| `Workspace.CandidatesRoundTrip` | src/alice_brain_hermes/core/reducer.py:86-124 | a broadcast written into an event reads back as itself if and only if all its candidates are valid |
| `Specialists.DeriveExact` | src/alice_brain_hermes/core/workspace.py:153-242 | all five specialists bid if and only if at most 256 narrative keys are unmatched and no identifier they cite is blank: that of the newest memory, of the previous broadcast's candidates, of the actions not yet reconstructed and of the strongest energy vector |
| `Specialists.DerivedAreBids` | src/alice_brain_hermes/core/workspace.py:135-150 | every derived candidate is a valid bid for the coming cycle |
| `Bids.DerivedSay` | src/alice_brain_hermes/core/workspace.py:153-242 | what the five bids are: specialist, score, content and sources, from the beliefs that disagree with the newest observations, the most active energy vector, the unfinished actions, the newest memory and previous broadcast, and the ideals nothing observed speaks of |
| `Bids.TopIsStrongest` | src/alice_brain_hermes/core/workspace.py:171-187 | the drive that bids has the greatest activation, and among equals the first id |
| `Cognition.ReflectionRoundTrip` | src/alice_brain_hermes/core/cognition.py:160-189 | a valid reflection written into an event payload reads back as itself |
| `Cognition.ReflectIsValid` | src/alice_brain_hermes/core/cognition.py:112-157 | the local port always returns a valid result with distinct branch ids |
| `Cognition.ReflectSays` | src/alice_brain_hermes/core/cognition.py:112-175 | it puts the content under the three policies, one branch each with a consequence to be confirmed, between a quarter and three quarters uncertain |
| `Pulse.TickAccepted` | src/alice_brain_hermes/core/reducer.py:335-352 | a tick with non-negative elapsed time is accepted from any valid state and leaves what the specialists read as it was |
| `Pulse.BroadcastAccepted` | src/alice_brain_hermes/core/reducer.py:101-124 | a selected broadcast is accepted from any valid state and becomes the workspace's |
| `Pulse.ReflectionAccepted` | src/alice_brain_hermes/core/reducer.py:450-501 | the local reflection on a broadcast without blank ids is accepted |
| `Pulse.PulseExact` | src/alice_brain_hermes/runtime/engine.py:628-665 | from any state with the invariant, tick, broadcast and reflection are all accepted if and only if the state is ready; the pulse then broadcasts the selection of the five bids and leaves a ready state |
| `Pulse.PulsesNeverStop` | src/alice_brain_hermes/runtime/engine.py:628-665 | from a ready state any number of pulses succeeds |
| `Pulse.ReachablePulse` | src/alice_brain_hermes/runtime/engine.py:628-665 | after any accepted history a pulse succeeds if and only if the condition on narrative keys, newest memory and previous broadcast holds |
| `Pulse.BlankBidStopsThePulse` | src/alice_brain_hermes/core/workspace.py:202-217 | a broadcast with a blank candidate id is accepted by the reducer and makes the next pulse fail |
| `SemanticIngest.MatchMeaning` | src/alice_brain_hermes/runtime/semantic_ingest.py:113-157 | a match is the one open span of the call when no closed one competes, or else the span closed last; it never crosses bridge, kind, call, context or time; nothing is matched without a reason exactly when no span fits |
| `SemanticIngest.TablesAgree` | src/alice_brain_hermes/runtime/semantic_ingest.py:429-570 | on every status and error type the compiler emits a receipt status exactly when the reducer accepts it for them, and a block exactly when the reducer accepts the block |
| `SemanticIngest.ReceiptStatusDetermined` | src/alice_brain_hermes/core/action.py:77-116 | at most one receipt status goes with a source status and error type |
| `Plans.PostToolTells` | src/alice_brain_hermes/runtime/semantic_ingest.py:429-575 | a matched completion with a verdict is applied unless it is late and blocked; then its plan tells that verdict of the action: status, execution, assessment and source, with a dispatch only when on time and executed, and closes an open span |
| `Plans.PostToolGaps` | src/alice_brain_hermes/runtime/semantic_ingest.py:456-487 | without a verdict it is a gap with the reason for that, and the open span is closed all the same |
| `Plans.PreToolTells` | src/alice_brain_hermes/runtime/semantic_ingest.py:276-381 | the first hook proposes the call with its tool and arguments, samples, requests an assessment, simulates a branch and prepares the action on that branch; its span names call and action |
| `Plans.SessionsApart` | src/alice_brain_hermes/runtime/semantic_ingest.py:619-647 | the actors of two subagents are the same exactly when bridge and session are |
| `PlanAcceptance.StepAccepted` | src/alice_brain_hermes/core/action.py:595-819 | in a sound state a lifecycle event whose guards hold is accepted by the whole reducer and changes its action only |
| `PlanAcceptance.ProposalDecided` | src/alice_brain_hermes/core/reducer.py:246-287 | a fresh proposal is accepted if and only if a slot is free or can be freed, keeps its own action, and is otherwise refused for capacity |
| `PlanAcceptance.ReachableSound` | src/alice_brain_hermes/core/reducer.py:526-531 | every reachable state is one of those about which acceptance is decided here |
| `SemanticCommit.PreToolDecided` | src/alice_brain_hermes/runtime/semantic_ingest.py:271-377 | the whole pre-tool plan for a fresh id is accepted if and only if an action slot is free or can be freed, leaves the action prepared with its energy assessment pending, and is otherwise refused for capacity |
| `SemanticCommit.OnTimePlanDecided` | src/alice_brain_hermes/runtime/semantic_ingest.py:429-570 | the plan for a completion of an open span is accepted if and only if the action is prepared, and ends it reconstructed with the outcome read |
| `SemanticCommit.LatePlanDecided` | src/alice_brain_hermes/runtime/semantic_ingest.py:429-570 | a late plan is accepted if and only if the action already has a receipt in its history, and keeps an outcome already set |
| `SemanticCommit.DispatchIsNotEnough` | src/alice_brain_hermes/core/action.py:681-768 | from any state with a prepared action, dispatching it leads to a state in which a late completion is refused |
| `SemanticCommit.NewBrainPrepares` | src/alice_brain_hermes/runtime/semantic_ingest.py:271-377 | such states exist: on a new brain the pre-tool plan of any call leaves a prepared action |
| `SemanticCommit.RegistrationDecided` | src/alice_brain_hermes/runtime/semantic_ingest.py:591-684 | a derived registration that the identity reducer accepts is accepted by the whole reducer and touches no action; refused for capacity, it is refused for capacity only |
| `StoreCommit.CommitExact` | src/alice_brain_hermes/runtime/store.py:6770-7025 | with the envelope's check of the provenance ids, matching, screening and the fallback to a gap, a record commits if and only if its session, turn and API request ids are absent or not blank and it is not a span-opening hook without an identifier that finds a free span slot; neither the reducer nor a full brain ever stops a commit |
| `StoreCommit.NoSlot` | src/alice_brain_hermes/runtime/store.py:6274-6313 | a table within its limit has no slot for a new span exactly when it is full and every span is open |
| `Statuses.StatusExact` | src/alice_brain_hermes/runtime/store.py:6860-6913 | a committed record is applied if and only if its hook finds what it needs: a slot for its span and its action, its own span, the span's action prepared or receipted and never prevented, with a verdict for it, or a place for the actor; everything else is recorded as a gap |
| `StoreCommit.NamelessCallNeverCommits` | src/alice_brain_hermes/runtime/semantic_ingest.py:363-371 | the witness for the exception in CommitExact: on a new brain with no spans, a tool call without an identifier does not commit |
| `StoreCommit.EmptyIdentifierNeverCommits` | src/alice_brain_hermes/core/events.py:184-192 | the witnesses for the other exception: a session finalized with an empty session id, and a tool call with an empty API request id, commit on no brain and with no span table, full or not |
| `SpanTable.TakesExact` | src/alice_brain_hermes/runtime/store.py:6770-7025 | a record is taken if and only if it starts at its stream's cursor, its session, turn and API request ids are absent or not blank, and it is not a span-opening hook without an identifier while some slot of the table is free or freeable |
| `SpanTable.CommitKept` | src/alice_brain_hermes/runtime/store.py:6315-6431 | every commit keeps the span table within its limit, ordered by occurrence, opened only by contexts that the envelope accepts, and every open tool span with a prepared action of its own |
| `SpanTable.RunKept` | src/alice_brain_hermes/runtime/store.py:6770-7025 | so does every run of commits, with any events of other writers in between that leave those actions alone |
| `SpanTable.OpenedKeeps` | src/alice_brain_hermes/runtime/store.py:6274-6313 | a new stream on a brain with any accepted history starts that way |
| `SpanTable.OnTimeIsApplied` | src/alice_brain_hermes/runtime/store.py:6241-6272 | a completion that finds its span open is never turned into a gap by the screen: with a readable status its call ends in the brain, reconstructed with the outcome read |
| `Calls.CommitSpans` | src/alice_brain_hermes/runtime/store.py:6315-6431 | a commit adds the span of an applied opening hook, in place of the span closed first if the table was full, closes the open span it matches, and leaves the rest of the table as it was |
| `Calls.CallEnds` | src/alice_brain_hermes/runtime/store.py:6770-7025 | a tool call whose first hook was applied, under a context no other call has used, ends with the verdict of its completion, whatever is committed for other calls and happens to the brain in between |
| `SpanTable.Evicted` | src/alice_brain_hermes/runtime/store.py:6315-6335 | eviction takes closed spans only, oldest first, as many as are asked for if there are |
| `SpanTable.PreparedStays` | src/alice_brain_hermes/core/reducer.py:246-287 | a prepared action is moved by its own lifecycle events only and is never evicted |
| `CommitAck.EveryAckIsAcceptable` | src/alice_brain_hermes/protocol/models.py:893-922 | the acknowledgement of every committed record satisfies the batch rule: distinct derived ids that exclude the raw one, contiguous sequences ending where the state has arrived, counts that fit the status |
| `CommitAck.PlanObeysRule` | src/alice_brain_hermes/runtime/semantic_ingest.py:168-181 | every plan the compiler can return keeps the plan's own limits and gives its events distinct identifiers |
| `Frames.CommitFrames` | src/alice_brain_hermes/runtime/store.py:5265-5358 | the frame of a commit keeps within its record budget and meets its own rule that the completeness it claims is what the counts say, so neither undoes a commit; and the observability row goes on agreeing with the brain |
| `Frames.RunConsistent` | src/alice_brain_hermes/runtime/store.py:2109-2204 | over every sequence of commits of any streams and other events the observability row and the brain agree on completeness, and dropped events come with a recorded gap |
| `Frames.NewBrainConsistent` | src/alice_brain_hermes/runtime/store.py:2433-2442 | they agree when a brain is created |
| `Frames.ValidFits` | src/alice_brain_hermes/core/limits.py:16-33 | the collections of a valid state are never more than the budget of a projection |
| `CaptureItems.TilesExactlyOnce` | src/alice_brain_hermes/protocol/models.py:701-708 | in a tiling of an interval every number of it lies in exactly one item and no other number in any |
| `CaptureItems.MergeAppendGap` | src/alice_brain_hermes/hermes/bridge.py:1332-1351 | a newer gap joins the end of the line in which queue and gaps are taken |
| `Bridge.HookBridge.OnCallback` | src/alice_brain_hermes/hermes/bridge.py:776-823 | the capture step changes the bridge as the specification function says |
| `Bridge.HookBridge.OnReservation` | src/alice_brain_hermes/hermes/bridge.py:825-989 | so does a reservation handed over by the bootstrap buffer, including the replay of the stored receipt |
| `Bridge.HookBridge.PublishGapLocked` | src/alice_brain_hermes/hermes/bridge.py:1028-1080 | so does publishing a gap, which extends the last span when adjacent |
| `Bridge.HookBridge.PublishObservationLocked` | src/alice_brain_hermes/hermes/bridge.py:991-1026 | an observation is queued whenever the queue has a free place, and otherwise counted as lost in a gap |
| `Bridge.HookBridge.SelectNextRecord` | src/alice_brain_hermes/hermes/bridge.py:1332-1351 | selecting takes the older of queue head and first gap when nothing is captured between its two halves |
| `Bridge.HookBridge.TakeQueueHead` | src/alice_brain_hermes/hermes/bridge.py:1333-1339 | the first half moves the front of the queue to the head, without the capture lock |
| `Bridge.HookBridge.ClaimOldest` | src/alice_brain_hermes/hermes/bridge.py:1340-1351 | the second half retains the first gap if there is no head or the gap is older, and else the head |
| `Bridge.HookBridge.CheckAttachCursor` | src/alice_brain_hermes/hermes/bridge.py:1443-1467 | so does the cursor check of a new connection |
| `Bridge.HookBridge.FinishCommit` | src/alice_brain_hermes/hermes/bridge.py:1560-1602 | so does an acknowledgement, which drops the retained record |
| `Bridge.HookBridge.SealCloseIfReady` | src/alice_brain_hermes/hermes/bridge.py:1842-1855 | so does the close seal |
| `Delivery.CaptureConserved` | src/alice_brain_hermes/hermes/bridge.py:776-823 | a capture keeps acknowledged, retained, queued and gap items tiling the reserved numbers, cause counts equal to lengths, and dropped events equal to all gap lengths |
| `Delivery.ReservedConserved` | src/alice_brain_hermes/hermes/bridge.py:825-989 | so does a reservation, early, late or repeated |
| `Captures.CaptureAdds` | src/alice_brain_hermes/hermes/bridge.py:776-824 | on an open bridge a callback adds exactly one number to the line: its observation if it was shaped and the queue has a free place, and else a gap of its cause, merged with a gap it touches; only a gap costs a dropped event and completeness |
| `Captures.ReservationAdds` | src/alice_brain_hermes/hermes/bridge.py:825-990 | so does a reservation, without being renumbered |
| `Captures.RunBooks` | src/alice_brain_hermes/hermes/bridge.py:991-1026 | over every run the observations acknowledged or held are, in order, the shaped captures that met a free place, and the causes recorded are those of all other captures |
| `Captures.DeliveredAreCaptured` | src/alice_brain_hermes/hermes/bridge.py:991-1026 | from a new bridge the server's observations are a first part of those captures |
| `Captures.GapsAreFew` | src/alice_brain_hermes/hermes/bridge.py:1028-1115 | however much is lost, no more gap ranges wait than there are waiting observations and one, hence at most the capacity and two |
| `Delivery.SelectConserved` | src/alice_brain_hermes/hermes/bridge.py:1332-1351 | so does a selection |
| `Delivery.AcknowledgeConserved` | src/alice_brain_hermes/hermes/bridge.py:1524-1602 | an acknowledgement moves exactly the retained record to the acknowledged ones |
| `Delivery.AttachAccepts` | src/alice_brain_hermes/hermes/bridge.py:1443-1467 | while a record is retained, the connection never refuses the server's cursor |
| `Delivery.AttachWhenIdle` | src/alice_brain_hermes/hermes/bridge.py:1443-1467 | with none retained, the cursor is accepted if and only if nothing waits |
| `Delivery.CommitDecided` | src/alice_brain_hermes/runtime/store.py:6770-7025 | in a safe system the server acknowledges a commit if and only if it has the record already or the store takes it; then it holds exactly what was acknowledged and the record, otherwise what it held before |
| `Delivery.StepSafe` | src/alice_brain_hermes/hermes/bridge.py:1262-1320 | every step of captures, selections, commits, lost requests, lost acknowledgements, reconnections, seals and closes keeps the system safe |
| `Delivery.RunSafe` | src/alice_brain_hermes/hermes/bridge.py:1262-1320 | hence every run does |
| `Delivery.ExactlyOnce` | src/alice_brain_hermes/hermes/bridge.py:1524-1602 | after every run the server's log tiles the numbers below its cursor and is a prefix of everything captured, in capture order, with no repeat or hole |
| `Delivery.NextRoundDelivers` | src/alice_brain_hermes/hermes/bridge.py:1262-1320 | from every safe state with an open stream the next connected round delivers the first of the line if and only if the server has it or the store takes it; refused, it stays first and neither end moves |
| `Streams.RoundDelivers` | src/alice_brain_hermes/hermes/bridge.py:1602-1622 | with the store's own decision: the first of the line is delivered if and only if the server has it or it is neither a record with a blank session, turn or API request id nor a span-opening hook without an identifier while a span slot is free or freeable |
| `Streams.RoundIsRun` | src/alice_brain_hermes/hermes/bridge.py:1262-1320 | that round is a run of four steps: disconnect, select, connect, commit |
| `Streams.StuckForever` | src/alice_brain_hermes/hermes/bridge.py:1602-1622 | once a record of either kind is first in line, no run of captures, commits, reconnections, closes and other events changes the server's log or the acknowledged records again |
| `Streams.RefusedStaysForever` | src/alice_brain_hermes/runtime/semantic_ingest.py:193-214 | on any brain a new stream whose first capture is a record that the store refuses delivers nothing, ever |
| `Streams.LegalCapturesStayForever` | src/alice_brain_hermes/protocol/models.py:146-151 | the witnesses, all of them legal observations: a tool call without an identifier, a session finalized with an empty id, a tool call with an empty API request id |
| `Streams.RunGood` | src/alice_brain_hermes/runtime/store.py:6770-7025 | over every run of the bridge against the store the log stays exact and the span table in order |
| `Delivery.CloseSucceeds` | src/alice_brain_hermes/runtime/store.py:5038-5089 | a sealed, connected bridge can close, and the server then holds everything captured before the seal |
| `Selection.SelectionExact` | src/alice_brain_hermes/hermes/bridge.py:1332-1351 | with any captures between the two halves of a selection, the system stays safe if and only if something was waiting at the first half or, at the second, the line does not begin with an observation that has a gap behind it; otherwise it is wedged |
| `Selection.RunSound` | src/alice_brain_hermes/hermes/bridge.py:1262-1351 | every run with two-step selection ends safe or wedged, and safe if and only if no claim in it took a gap past a queued observation |
| `Selection.WedgedForever` | src/alice_brain_hermes/hermes/bridge.py:1443-1467 | a wedged bridge holds a record from beyond the server's cursor: no further run changes the server or the acknowledged records |
| `Selection.StillExactlyOnce` | src/alice_brain_hermes/runtime/store.py:6802-6848 | even so, after every such run the log tiles the numbers below the cursor and is a prefix of what was captured |
| `Selection.TwoCapturesWedge` | src/alice_brain_hermes/hermes/bridge.py:1335-1347 | the witness: two captures between the halves of the first selection, one queued and one turned into a gap because it has no shape or a queue of capacity one is full, after which the log stays empty |
| `Bootstrap.BootstrapCaptureBuffer.OnCallback` | src/alice_brain_hermes/hermes/registration.py:592-672 | the bootstrap capture step changes the buffer as the specification function says |
| `Bootstrap.BootstrapCaptureBuffer.ReplacePendingWithGap` | src/alice_brain_hermes/hermes/registration.py:714-758 | so does turning a pending number into a gap wherever it is held |
| `Bootstrap.BootstrapCaptureBuffer.RetainGap` | src/alice_brain_hermes/hermes/registration.py:760-804 | so does retaining a new gap, merged with its neighbour when it can be |
| `Bootstrap.BootstrapCaptureBuffer.RecordGapLocked` | src/alice_brain_hermes/hermes/registration.py:806-856 | so does recording a gap with its health counters |
| `Bootstrap.BootstrapCaptureBuffer.Next` | src/alice_brain_hermes/hermes/registration.py:934-952 | so does taking the next item |
| `Bootstrap.BootstrapCaptureBuffer.MarkHandedOff` | src/alice_brain_hermes/hermes/registration.py:954-982 | so does marking it handed off |
| `Bootstrap.BootstrapCaptureBuffer.MarkLateAfterClose` | src/alice_brain_hermes/hermes/registration.py:984-1010 | so does marking it late |
| `BootstrapBooks.CaptureSound` | src/alice_brain_hermes/hermes/registration.py:592-672 | a capture keeps handed-off and pending items tiling the reserved numbers and every counter equal to what the stores hold, with completeness only when nothing was dropped |
| `BootstrapCaptures.CaptureAdds` | src/alice_brain_hermes/hermes/registration.py:592-650 | a callback adds exactly one number to the line: its observation if it was shaped and the queue has a free place, and else a gap of its cause, which joins another range only when the queue is full |
| `BootstrapBooks.TurnSound` | src/alice_brain_hermes/hermes/registration.py:714-758 | turning any pending number into a gap keeps its place and counts it as lost exactly once |
| `BootstrapBooks.AbsentExact` | src/alice_brain_hermes/hermes/registration.py:714-758 | the search for a number finds nothing exactly when it is not pending |
| `BootstrapBooks.CallbackFailedSound` | src/alice_brain_hermes/hermes/registration.py:681-701 | a callback that fails after its reservation keeps the books |
| `BootstrapBooks.NextSound` | src/alice_brain_hermes/hermes/registration.py:934-952 | taking the next item keeps the books |
| `BootstrapBooks.HandOffSound` | src/alice_brain_hermes/hermes/registration.py:954-982 | handing over moves exactly the held item; what was counted as lost stays counted |
| `BootstrapBooks.MarkLateSound` | src/alice_brain_hermes/hermes/registration.py:984-1010 | a late item moves too and is counted as late and lost |
| `Handoff.StepPaired` | src/alice_brain_hermes/hermes/registration.py:1688-1716 | every step of the two, including a failure anywhere in the handoff, keeps the bridge cursor at the first number of the oldest unhanded item, or one past it with its stored receipt |
| `Handoff.RunPaired` | src/alice_brain_hermes/hermes/registration.py:1688-1716 | hence every run does |
| `Handoff.RetryIsIdempotent` | src/alice_brain_hermes/hermes/bridge.py:886-989 | failing after the reservation and retrying is the same as not failing |
| `Handoff.HandoffIsExact` | src/alice_brain_hermes/hermes/registration.py:934-1010 | after every run handed-off and pending items hold every reserved number once, the bridge holds a hole-free run up to its cursor, and no observation was renumbered or changed |
| `EndToEnd.StepGood` | src/alice_brain_hermes/hermes/registration.py:1688-1716 | every step of the joined pipeline, at the buffer, in the handoff, in the bridge or at the server, keeps all of its invariants together |
| `EndToEnd.SendFrame` | src/alice_brain_hermes/hermes/bridge.py:1262-1320 | sending, reconnecting and closing move items along without changing them and leave the capture cursor alone |
| `EndToEnd.StepRecorded` | src/alice_brain_hermes/hermes/registration.py:592-701 | every step keeps the buffer's observations tied to the history of callbacks: the one under a number is what the callback that was given it supplied |
| `EndToEnd.CapturedIsDelivered` | src/alice_brain_hermes/hermes/registration.py:1688-1716 | from callback to server, after every run with failures and retries at every end: the server accounts for every number below its cursor exactly once and in order, and the observation it holds under a number is what the callback that was given that number supplied |
| `Engine.Ledger.AppendAt` | src/alice_brain_hermes/runtime/store.py:7062-7184 | the ledger inserts at the expected sequence, adopts an exact repeat that is still the head, and otherwise says which conflict it met |
| `Engine.ConsciousEngine.OnAppend` | src/alice_brain_hermes/runtime/engine.py:219-285 | append changes engine and ledger as the specification function says |
| `Engine.AppendMeans` | src/alice_brain_hermes/runtime/engine.py:219-290 | one append adds at most one event, which the reducer has accepted and which is the next of the ledger; the published state is still the fold of a prefix; a conflict publishes nothing |
| `Engine.BatchMeans` | src/alice_brain_hermes/runtime/engine.py:313-386 | a batch is added whole or not at all, and only at the head the engine holds |
| `Engine.RunReplayed` | src/alice_brain_hermes/runtime/engine.py:287-290 | with other writers interleaved arbitrarily the published state is always the fold of the first last_sequence events, and nothing is published once the latch is set |
| `Engine.RunUnique` | src/alice_brain_hermes/runtime/store.py:194-203 | every run of appends, batches and other writers keeps event identifiers unique |
| `Engine.RepeatChangesNothing` | src/alice_brain_hermes/runtime/engine.py:242-260 | appending an appended event again finds it and changes nothing, in a ledger whose identifiers were unique before |
| `Engine.RepeatAfterRun` | src/alice_brain_hermes/runtime/engine.py:219-285 | hence after every run from a new ledger, with other writers in between |
| `Snapshot.SnapshotWorker.OnRegister` | src/alice_brain_hermes/runtime/snapshot.py:93-128 | registration raises the observed head, adopts a known snapshot and wakes the worker when the brain is due |
| `Snapshot.SnapshotWorker.OnNotify` | src/alice_brain_hermes/runtime/snapshot.py:130-141 | a publication raises the head and wakes the worker when the next attempt is reached |
| `Snapshot.SnapshotWorker.CheckLatest` | src/alice_brain_hermes/runtime/snapshot.py:143-152 | the last snapshot is remembered or loaded |
| `Snapshot.SnapshotWorker.OnSaved` | src/alice_brain_hermes/runtime/snapshot.py:176-182 | a saved snapshot schedules the next attempt one interval later and clears the error |
| `Snapshot.SnapshotWorker.OnFailure` | src/alice_brain_hermes/runtime/snapshot.py:161-198 | a failure is recorded and retried one interval later |
| `Snapshot.SnapshotWorker.FinishProcessing` | src/alice_brain_hermes/runtime/snapshot.py:216-225 | a brain that became due meanwhile is pending again |
| `Snapshot.NoLostWakeup` | src/alice_brain_hermes/runtime/snapshot.py:93-225 | whatever lands between the worker's sections, a registered brain whose head has reached its next attempt, or that has none, is pending or in hand |
| `Snapshot.IdleIsRecent` | src/alice_brain_hermes/runtime/snapshot.py:143-182 | an idle brain without an error is less than one interval past its newest stored snapshot |
| `Snapshot.SnapshotsSpaced` | src/alice_brain_hermes/runtime/snapshot.py:143-182 | over every run the stored snapshots of a brain are at least one interval apart |
| `Snapshot.StopDrains` | src/alice_brain_hermes/runtime/snapshot.py:200-225 | a worker that exits has left no registered brain due |
| `Teardown.HermesDaemonRuntime.BeginOperation` | src/alice_brain_hermes/runtime/daemon.py:535-541 | an operation begins exactly when the runtime is neither closing nor closed |
| `Teardown.HermesDaemonRuntime.RetainFailedOwner` | src/alice_brain_hermes/runtime/daemon.py:397-413 | a runtime and its transport wrapper stand for each other, the wrapper wins, and another owner is never replaced |
| `Teardown.HermesDaemonRuntime.StopAllSchedulers` | src/alice_brain_hermes/runtime/daemon.py:1245-1260 | every scheduler that can stop is stopped once, and success means all are |
| `Teardown.HermesDaemonRuntime.TearDown` | src/alice_brain_hermes/runtime/daemon.py:1277-1302 | the staged block runs the open stages in order up to the first failure |
| `Teardown.HermesDaemonRuntime.CloseDrained` | src/alice_brain_hermes/runtime/daemon.py:1262-1311 | a close ends closed with its registry entry gone, or failed with the owner retained unless another runtime's owner is in the entry, which then stays |
| `Teardown.TeardownOrder` | src/alice_brain_hermes/runtime/daemon.py:1277-1302 | at every point of every run of closes, failures and retries: lease released implies discovery cleaned, credential cleaned, ledger closed, snapshot worker stopped, schedulers stopped, each completed once, with every scheduler stopped |
| `Teardown.QuietTeardown` | src/alice_brain_hermes/runtime/daemon.py:535-546 | once any scheduler or stage is torn down no operation is active and none can begin |
| `Teardown.NeverForgotten` | src/alice_brain_hermes/runtime/daemon.py:416-468 | a runtime whose close failed or that fail-stopped stays in the registry until closed, unless somebody is closing it or another runtime's owner was in the entry when it was last to be retained |
| `Teardown.FailedCloseRetained` | src/alice_brain_hermes/runtime/daemon.py:397-413 | a failing close retains its owner if and only if no other runtime's owner is in the entry |
| `Teardown.OwnerCanBeLost` | src/alice_brain_hermes/runtime/daemon.py:399-412 | the other case is real: a run in which a close fails while another runtime's owner is in the entry, after which nothing remembers this one |
| `Teardown.ReleasedMeansClosed` | src/alice_brain_hermes/runtime/daemon.py:1292-1309 | the lease is released exactly when the runtime is closed or its close is about to report success |
| `Teardown.CleanRetry` | src/alice_brain_hermes/runtime/daemon.py:1262-1311 | a retry without failures completes what is left, and nothing twice |
| `Framing.Find` | src/alice_brain_hermes/runtime/daemon.py:1720 | the first newline at or after a position |
| `Framing.HandleChunk` | src/alice_brain_hermes/runtime/daemon.py:1718-1756 | one read hands on the frames of the lines it completes; between reads the buffer never exceeds the maximum and is empty while discarding |
| `Framing.HandleClient` | src/alice_brain_hermes/runtime/daemon.py:1678-1756 | the frames handed on depend on the concatenated bytes only, not on how the reads split them |
| `Framing.LinesConcat` | src/alice_brain_hermes/runtime/daemon.py:1719-1756 | lines of a stream are those of its first part followed by those of the rest with the unfinished line in front |
| `Framing.FeedPrefix` | src/alice_brain_hermes/runtime/daemon.py:1733-1756 | what is handed on is a prefix of the frames, the whole unless processing stops |
| `Framing.FramesOfLines` | src/alice_brain_hermes/runtime/daemon.py:1719-1756 | a stream written line by line gives each line once, in order: over-long ones as one oversize marker, others without their trailing carriage return |
| `Framing.RequestsArrive` | src/alice_brain_hermes/runtime/daemon.py:1719-1756 | requests written one to a line, with or without a carriage return, are read back as they were, and a line over the maximum as one oversize marker |
| `Framing.EveryStreamIsLines` | src/alice_brain_hermes/runtime/daemon.py:1719-1756 | every stream is written that way, so its frames are known |
| `Framing.HandedWhole` | src/alice_brain_hermes/runtime/daemon.py:1701-1756 | a connection that is not stopped hands on every line and a non-empty tail at end of file |
| `Trees.TreeShape` | src/alice_brain_hermes/protocol/diagnostics.py:150-163 | the explicit-stack walk returns the recursive size and height |
| `Trees.ValidateTree` | src/alice_brain_hermes/protocol/service.py:109-124 | the early-exit walk of server and client accepts exactly the trees within both limits |
| `Trees.BoundedTree` | src/alice_brain_hermes/protocol/models.py:243-287 | the record model's walk, which counts keys where it meets them, accepts exactly the trees within all its limits: nodes, depth, container sizes, key and string lengths, timestamps, 64-bit integers and finite floats |
| `Trees.PopMeasures` | src/alice_brain_hermes/protocol/diagnostics.py:150-163 | popping an item and pushing its parts keeps what is still to be counted |
| `Responses.BudgetExact` | src/alice_brain_hermes/protocol/service.py:138-159 | a result meets the derived byte, node and depth budget if and only if its success envelope meets the connection limits, for every request id |
| `Responses.Deliver` | src/alice_brain_hermes/protocol/service.py:226-271 | a result is sent whole and accepted by the client under the same limits exactly when it meets the budget |
| `Responses.Receive` | src/alice_brain_hermes/protocol/client.py:68-82 | the client accepts exactly the whole envelopes within its node and depth limits |
| `TracePage.PageLimitViolations` | src/alice_brain_hermes/protocol/diagnostics.py:166-192 | the three flags say which measures of the encoded page exceed the budget |
| `TracePage.BuildTracePage` | src/alice_brain_hermes/protocol/diagnostics.py:195-289 | the binary search returns what trying every length from the longest down returns |
| `TracePage.FitsBelow` | src/alice_brain_hermes/protocol/diagnostics.py:265-285 | a page that fits has only fitting ones below, although cursor, count and blocked number change with its length |
| `TracePage.WholePageAccepted` | src/alice_brain_hermes/protocol/diagnostics.py:104-147 | the page rules refuse the requested page exactly when its events do not follow the cursor in one brain |
| `TracePage.ShorterPageAccepted` | src/alice_brain_hermes/protocol/diagnostics.py:104-147 | every shorter candidate obeys the rules: its blocked event is the next one |
| `TracePage.BuildMeans` | src/alice_brain_hermes/protocol/diagnostics.py:253-289 | a built page meets the budget and is the whole requested one, or that one does not fit and no page between the two does; a refusal means the events do not follow the cursor |
| `TracePage.TraceListMeans` | src/alice_brain_hermes/protocol/service.py:561-589 | over a ledger every built page is a contiguous piece after the cursor and says there is more if and only if there is |
| `TracePage.ReadingIsPrefix` | src/alice_brain_hermes/protocol/diagnostics.py:104-147 | following next_after_sequence over a growing ledger with any limits yields exactly the events up to the cursor, none skipped or repeated |
| `TracePage.ReadToTheEnd` | src/alice_brain_hermes/protocol/diagnostics.py:104-147 | a page that says nothing is left has brought the reader to the whole ledger |
| `TracePage.ProgressExact` | src/alice_brain_hermes/protocol/diagnostics.py:253-289 | while events are left, a call moves the reader on if and only if the requested page fits, or it has more than one event and the page cut after one event fits |
| `TracePage.ReachesEnd` | src/alice_brain_hermes/protocol/service.py:561-589 | once the ledger has stopped growing, as many such calls as events are left bring the reader to the whole ledger |
| `TracePage.BlockedStays` | src/alice_brain_hermes/protocol/diagnostics.py:265-289 | a call that an event does not fit leaves the reader where it is however often it is repeated: no event is skipped |
| `TracePage.PageArrives` | src/alice_brain_hermes/protocol/service.py:561-589 | a page built to the budget is sent whole and accepted by the client |
| `TracePage.NoNeedlessCut` | src/alice_brain_hermes/protocol/diagnostics.py:253-263 | a requested page that would arrive whole is returned whole |

## Left out

- Floating point and decimal rounding: scores, clocks, buckets and energies are exact reals, so the twelve-digit rounding of the activation and overflow to infinity do not occur.
- Hashes and fingerprints: identifiers are free terms, injective by construction, and other digests are fields or parameters.
- Field lengths, regular expressions, UUID and Unicode rules, datetimes and JSON printing; of text only blankness, length bounds and order where a rule uses them.
- Acceptance: the conditions leave out, as everything here does, the greatest lengths of texts and the form of identifiers.
- A list field given as a bare string or object, which the source would iterate over.
- A value that is not JSON, which the source's walk refuses, has no counterpart in `Trees.BoundedTree`.
- HookBridge: stream rotation after abandonment, frame refreshing and validation in `_connect`, recovery of a clean close, worker threads, wakeups and backoff.
- BootstrapCaptureBuffer: worker replacement of the bridge, identity and energy workers, registration failures and the emergency latches for exceptions inside queue and event primitives.
- StoreCommit.CommitExact: the byte limits on frame and acknowledgement (`runtime/store.py:6145-6154`, `runtime/store.py:7027-7036`) and an int64 overflow of an observability total are not modelled; each of them undoes a commit.
- Streams.RoundDelivers: holds within those limits and the negotiated record size (`protocol/service.py:752-757`), and for an engine that has not diverged from its ledger.
- Frames: of the frame, only the fields that its rules and budget speak of.
- SemanticIngest: the ids in an event's envelope are checked but not kept, since nothing reads them there. An observation of any hook may carry any of the ids, which only adds inputs.
- Streams.StuckForever: abandonment of the stream by the store's maintenance, and the rotation that follows, are not steps.
- Selection.WedgedForever: neither are they steps there.
- CommitAck.EveryAckIsAcceptable: does not state that the frame binds the terminal sequence, because frames are not modelled.
- Engine: lease claims, stream abandonment and naming are covered only as batches of events; pulse retry, failure and recovery events and the process check are not.
- Snapshot: error texts and their order, health reports, timeouts, starting a second thread, and a registry sink that itself raises. The dictionaries keyed by brain are one dictionary of records, so that one section changes one record.
- Teardown.HermesDaemonRuntime.CloseDrained: starts when no operation is active; waiting for that is a step of the runs. What each stage does outside the process is only success or failure.
- Teardown: closing the startup owner before a runtime exists, and the transport server's own listeners and handlers, which count as owner claims.
- Framing.HandleClient: the check for a shutdown between reads and the authentication deadline are not modelled; both only end the connection early.
- TracePage: identifiers are always 36 characters; wrong argument types.
- Responses: error responses and the encoding fallback's own size.
- The SQLite store beyond the contracts above, projections, language-model workers, lease clients, discovery, supervision, the command line, plugin registration and scripts.
