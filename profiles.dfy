/**
 * The surface profile store: a table from surface id to the speed and
 * acceleration limits learned for that surface, with a scratch slot for
 * terrain the classifier has not recognised (surface_callback).
 */
module Profiles {

  /** The limits the command shaper applies on one surface. */
  datatype Profile = Profile(maxXVel: real, maxAccel: real)

  /** Limits of a surface seen for the first time, and of a freshly reset scratch slot. */
  const DEFAULT_PROFILE := Profile(2.0, 0.25)

  /** Id of the scratch slot for unclassified terrain. */
  const UNCLASSIFIED: int := -1

  type SurfaceTable = map<int, Profile>

  /** The table right after start-up: only the scratch slot, holding the defaults. */
  const INITIAL_TABLE: SurfaceTable := map[UNCLASSIFIED := DEFAULT_PROFILE]

  /**
   * The table after the classifier reports surface `id` while `previous`
   * was the current surface. A new id seen straight after unclassified
   * terrain inherits what was learned there; any other new id gets the
   * defaults; a known id (the scratch slot included) keeps its entry and
   * resets the scratch slot.
   */
  function AfterSurfaceEvent(table: SurfaceTable, previous: int, id: int): (t: SurfaceTable)
    requires UNCLASSIFIED in table
    ensures t.Keys == table.Keys + {id}
    ensures UNCLASSIFIED in t && id in t
    ensures id !in table && previous == UNCLASSIFIED ==>
      t[id] == table[UNCLASSIFIED] && t[UNCLASSIFIED] == DEFAULT_PROFILE
    ensures id !in table && previous != UNCLASSIFIED ==>
      t[id] == DEFAULT_PROFILE && t[UNCLASSIFIED] == table[UNCLASSIFIED]
    ensures id in table ==>
      t[UNCLASSIFIED] == DEFAULT_PROFILE && (id != UNCLASSIFIED ==> t[id] == table[id])
    ensures forall k :: k in table && k != id && k != UNCLASSIFIED ==> t[k] == table[k]
  {
    if id !in table then
      if previous == UNCLASSIFIED then
        table[id := table[UNCLASSIFIED]][UNCLASSIFIED := DEFAULT_PROFILE]
      else
        table[id := DEFAULT_PROFILE]
    else
      table[UNCLASSIFIED := DEFAULT_PROFILE]
  }
}
