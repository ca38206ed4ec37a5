/** LockPanel: which lock inputs the current stage shows. */
module LockPanel {
  import opened Wrappers
  import opened Dto
  import opened GameSessionModel
  import opened GameSessionService
  import opened LockValidationService
  import opened GameController
  import opened LockInput

  datatype LockEntry = LockEntry(lockType: string, maxLength: nat)

  const LOCK_MAX_LENGTH: nat := 10

  /** The visible locks: in CELL the cell drawer, then the cell door once the drawer is open; in
      DESK the desk drawer, then the final door once the desk drawer is open; none elsewhere. */
  function VisibleLocks(gameState: GameStateDTO): (locks: seq<LockEntry>)
    ensures forall i | 0 <= i < |locks| :: locks[i].maxLength == LOCK_MAX_LENGTH
    ensures gameState.currentStage == Some("CELL") ==>
              |locks| >= 1 && locks[0].lockType == "cell-drawer"
              && (|locks| == 2 <==> Truthy(gameState.cellDrawerUnlocked))
              && (|locks| == 2 ==> locks[1].lockType == "cell-door")
    ensures gameState.currentStage == Some("DESK") ==>
              |locks| >= 1 && locks[0].lockType == "desk-drawer"
              && (|locks| == 2 <==> Truthy(gameState.deskDrawerUnlocked))
              && (|locks| == 2 ==> locks[1].lockType == "final-door")
    ensures gameState.currentStage != Some("CELL") && gameState.currentStage != Some("DESK") ==> locks == []
    ensures |locks| <= 2
  {
    if gameState.currentStage == Some("CELL") then
      [LockEntry("cell-drawer", LOCK_MAX_LENGTH)]
      + (if Truthy(gameState.cellDrawerUnlocked) then [LockEntry("cell-door", LOCK_MAX_LENGTH)] else [])
    else if gameState.currentStage == Some("DESK") then
      [LockEntry("desk-drawer", LOCK_MAX_LENGTH)]
      + (if Truthy(gameState.deskDrawerUnlocked) then [LockEntry("final-door", LOCK_MAX_LENGTH)] else [])
    else []
  }

  /** `getVisibleLocks`, built by pushes onto a local list. */
  method GetVisibleLocks(gameState: GameStateDTO) returns (locks: seq<LockEntry>)
    ensures locks == VisibleLocks(gameState)
  {
    locks := [];
    if gameState.currentStage == Some("CELL") {
      locks := locks + [LockEntry("cell-drawer", LOCK_MAX_LENGTH)];
      if Truthy(gameState.cellDrawerUnlocked) {
        locks := locks + [LockEntry("cell-door", LOCK_MAX_LENGTH)];
      }
    } else if gameState.currentStage == Some("DESK") {
      locks := locks + [LockEntry("desk-drawer", LOCK_MAX_LENGTH)];
      if Truthy(gameState.deskDrawerUnlocked) {
        locks := locks + [LockEntry("final-door", LOCK_MAX_LENGTH)];
      }
    }
  }

  /** The code of each lock type. */
  function CodeOf(lockType: string): string
  {
    if lockType == "cell-drawer" then CELL_DRAWER_CODE
    else if lockType == "cell-door" then CELL_DOOR_CODE
    else if lockType == "desk-drawer" then DESK_DRAWER_CODE
    else FINAL_DOOR_CODE
  }

  /** For a consistent session shown through its DTO, the panel agrees with the server: every lock
      it shows takes its code, and every lock that still takes its code and is not yet open is shown. */
  lemma PanelAgreesWithServer(id: int, s: SessionState, lockType: string)
    requires Consistent(s) && lockType in LOCK_TYPES
    ensures var d := ConvertToDTO(id, s);
            var shown := exists i | 0 <= i < |VisibleLocks(d)| :: VisibleLocks(d)[i].lockType == lockType;
            && (shown ==> LockAttempt(s, lockType, CodeOf(lockType)).correct)
            && (LockAttempt(s, lockType, CodeOf(lockType)).correct && !IsUnlocked(Some(d), lockType) ==> shown)
  {
    var d := ConvertToDTO(id, s);
    var locks := VisibleLocks(d);
    if s.currentStage == CELL {
      assert locks[0].lockType == "cell-drawer";
      if s.cellDrawerUnlocked {
        assert locks[1].lockType == "cell-door";
      }
    } else if s.currentStage == DESK {
      assert locks[0].lockType == "desk-drawer";
      if s.deskDrawerUnlocked {
        assert locks[1].lockType == "final-door";
      }
    }
  }
}
