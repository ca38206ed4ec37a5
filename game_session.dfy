/** The GameSession entity: the stage, the inventory and lock flags, the inspection counts
    and the two timestamps, together with the invariants the service operations keep. */
module GameSessionModel {
  import opened Wrappers

  /** A user id (a UUID in the source). */
  type UserId = nat

  const CELL := "CELL"
  const DESK := "DESK"
  const ESCAPED := "ESCAPED"

  /** The game part of a session, as the services read and write it. The stage is a plain string
      because the explicit stage transition can store any string. */
  datatype SessionState = SessionState(
    currentStage: string,
    hasRod: bool,
    hasDeskKey: bool,
    hasMetalPiece: bool,
    cellDrawerUnlocked: bool,
    cellDoorUnlocked: bool,
    deskDrawerUnlocked: bool,
    finalDoorUnlocked: bool,
    inspectionCounts: map<string, int>)

  /** Outcome of a guarded update: whether it succeeded and the state afterwards. */
  datatype Attempt = Attempt(correct: bool, after: SessionState)

  /** The entity's field defaults: stage CELL, every flag false, counts `{}`. */
  function InitialState(): SessionState
  {
    SessionState(CELL, false, false, false, false, false, false, false, map[])
  }

  /** Position of a stage in CELL, DESK, ESCAPED; -1 for any other string. */
  function StageRank(stage: string): int
  {
    if stage == CELL then 0 else if stage == DESK then 1 else if stage == ESCAPED then 2 else -1
  }

  /** What holds of every session reachable through the lock, item and inspection services. */
  predicate Consistent(s: SessionState)
  {
    && StageRank(s.currentStage) >= 0
    && (s.cellDoorUnlocked ==> s.cellDrawerUnlocked)
    && (s.deskDrawerUnlocked ==> s.cellDoorUnlocked)
    && (s.finalDoorUnlocked ==> s.deskDrawerUnlocked)
    && (s.hasRod ==> s.cellDrawerUnlocked)
    && (s.hasDeskKey ==> s.hasRod)
    && !s.hasMetalPiece
    && (s.cellDoorUnlocked <==> s.currentStage != CELL)
    && (s.finalDoorUnlocked <==> s.currentStage == ESCAPED)
  }

  /** `t` is no step back from `s`: no lock relocked, no item lost, the stage not moved backwards. */
  predicate Progressed(s: SessionState, t: SessionState)
  {
    && (s.cellDrawerUnlocked ==> t.cellDrawerUnlocked)
    && (s.cellDoorUnlocked ==> t.cellDoorUnlocked)
    && (s.deskDrawerUnlocked ==> t.deskDrawerUnlocked)
    && (s.finalDoorUnlocked ==> t.finalDoorUnlocked)
    && (s.hasRod ==> t.hasRod)
    && (s.hasDeskKey ==> t.hasDeskKey)
    && StageRank(s.currentStage) <= StageRank(t.currentStage)
  }

  /** Every flag and the stage are equal; only inspection counts may differ. */
  predicate SameProgress(s: SessionState, t: SessionState)
  {
    s.(inspectionCounts := t.inspectionCounts) == t
  }

  lemma InitialStateIsConsistent()
    ensures Consistent(InitialState())
    ensures InitialState().currentStage == CELL
    ensures InitialState().inspectionCounts == map[]
  {
  }

  /** Progress composes. */
  lemma ProgressedTransitive(s: SessionState, t: SessionState, u: SessionState)
    requires Progressed(s, t) && Progressed(t, u)
    ensures Progressed(s, u)
  {
  }

  /** `startTime` after a save at `now`: set if it was null, otherwise kept. */
  function StartAfterSave(startTime: Option<nat>, now: nat): (r: Option<nat>)
    ensures r.Some?
    ensures startTime.Some? ==> r == startTime
    ensures startTime.None? ==> r == Some(now)
  {
    if startTime.None? then Some(now) else startTime
  }

  /** `session` was saved at `now`: JPA runs the update hook only for an entity with a changed
      field, so when the game state is as it was the timestamps are as they were too; otherwise
      the hook ran with that clock value. */
  twostate predicate SavedAt(session: GameSession, now: nat)
    reads session
  {
    if session.State() == old(session.State()) then
      && session.lastUpdated == old(session.lastUpdated)
      && session.startTime == old(session.startTime)
    else
      && session.lastUpdated == Some(now)
      && session.startTime == StartAfterSave(old(session.startTime), now)
  }

  class GameSession {
    const id: int
    const userId: UserId
    var currentStage: string
    var hasRod: bool
    var hasDeskKey: bool
    var hasMetalPiece: bool
    var cellDrawerUnlocked: bool
    var cellDoorUnlocked: bool
    var deskDrawerUnlocked: bool
    var finalDoorUnlocked: bool
    var inspectionCounts: map<string, int>
    var startTime: Option<nat>
    var lastUpdated: Option<nat>

    /** A new entity with the field defaults; the timestamps are null until it is first saved. */
    constructor (id: int, userId: UserId)
      ensures this.id == id && this.userId == userId
      ensures State() == InitialState()
      ensures startTime == None && lastUpdated == None
    {
      this.id := id;
      this.userId := userId;
      currentStage := CELL;
      hasRod := false;
      hasDeskKey := false;
      hasMetalPiece := false;
      cellDrawerUnlocked := false;
      cellDoorUnlocked := false;
      deskDrawerUnlocked := false;
      finalDoorUnlocked := false;
      inspectionCounts := map[];
      startTime := None;
      lastUpdated := None;
    }

    function State(): SessionState
      reads this
    {
      SessionState(currentStage, hasRod, hasDeskKey, hasMetalPiece,
                   cellDrawerUnlocked, cellDoorUnlocked, deskDrawerUnlocked, finalDoorUnlocked,
                   inspectionCounts)
    }

    /** The persist/update hook: `startTime` is set once, `lastUpdated` on every save. */
    method UpdateTimestamp(now: nat)
      modifies this
      ensures startTime == StartAfterSave(old(startTime), now)
      ensures old(startTime).Some? ==> startTime == old(startTime)
      ensures lastUpdated == Some(now)
      ensures State() == old(State())
    {
      if startTime.None? {
        startTime := Some(now);
      }
      lastUpdated := Some(now);
    }

    /** The setters of the stage, the rod, the key and the four locks, each given `t`'s value;
        the metal piece, the counts and the timestamps are not written. */
    method SetProgress(t: SessionState)
      modifies this
      ensures State() == SessionState(t.currentStage, t.hasRod, t.hasDeskKey, old(hasMetalPiece),
                                      t.cellDrawerUnlocked, t.cellDoorUnlocked, t.deskDrawerUnlocked, t.finalDoorUnlocked,
                                      old(inspectionCounts))
      ensures startTime == old(startTime) && lastUpdated == old(lastUpdated)
    {
      currentStage := t.currentStage;
      hasRod := t.hasRod;
      hasDeskKey := t.hasDeskKey;
      cellDrawerUnlocked := t.cellDrawerUnlocked;
      cellDoorUnlocked := t.cellDoorUnlocked;
      deskDrawerUnlocked := t.deskDrawerUnlocked;
      finalDoorUnlocked := t.finalDoorUnlocked;
    }

    /** `repository.save` of an entity already stored: the update hook runs only when some field
        differs from `stored`, the state last written. */
    method Save(stored: SessionState, now: nat)
      modifies this
      ensures State() == old(State())
      ensures State() != stored ==> lastUpdated == Some(now) && startTime == StartAfterSave(old(startTime), now)
      ensures State() == stored ==> unchanged(this)
    {
      if State() != stored {
        UpdateTimestamp(now);
      }
    }
  }
}
