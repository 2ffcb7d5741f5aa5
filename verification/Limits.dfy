// The public working-set capacities (core/limits.py) and the two action
// history bounds (core/action.py).
module Limits {
  const MAX_ACTION_RECORDS: nat := 256
  const MAX_ENERGY_RECORDS: nat := 256
  const MAX_THOUGHT_BRANCHES: nat := 256
  const MAX_MEMORY_RECORDS: nat := 256
  const MAX_COGNITION_REFLECTIONS: nat := 128
  const MAX_WORLD_PROPOSITIONS_PER_LAYER: nat := 256
  const MAX_IDENTITY_ACTORS: nat := 256
  const MAX_PROVENANCE_AUTHORIZATIONS: nat := 256
  const MAX_PERSONALITY_VALUES_PER_LAYER: nat := 2048
  const MAX_RAW_LIFECYCLE_KEYS: nat := 256
  const MAX_CAPABILITIES: nat := 256
  const MAX_WORKSPACE_BROADCAST: nat := 64
  const MAX_SOURCE_IDS: nat := 256
  const MAX_ACTION_RECEIPT_HISTORY: nat := 16
  const MAX_ACTION_RECONSTRUCTION_HISTORY: nat := 16
  const MAX_ACTION_SOURCE_ERROR_TYPE_LENGTH: nat := 160
}
