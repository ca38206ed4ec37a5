/** LockValidationService: the four combination locks. Each has a fixed code, compared with the
    trimmed answer, a prerequisite, and possibly a stage advance. */
module LockValidationService {
  import opened Wrappers
  import opened Text
  import opened GameSessionModel

  const CELL_DRAWER_CODE := "1247"
  const CELL_DOOR_CODE := "3589"
  const DESK_DRAWER_CODE := "4729"
  const FINAL_DOOR_CODE := "8264"

  /** The cell drawer: no prerequisite. */
  function CellDrawerAttempt(s: SessionState, answer: string): (r: Attempt)
    ensures r.correct <==> JavaTrim(answer) == CELL_DRAWER_CODE
    ensures Consistent(s) ==> Consistent(r.after)
    ensures Progressed(s, r.after)
  {
    if JavaTrim(answer) == CELL_DRAWER_CODE then Attempt(true, s.(cellDrawerUnlocked := true))
    else Attempt(false, s)
  }

  /** The cell door: needs the cell drawer open; it moves CELL to DESK and leaves any other stage. */
  function CellDoorAttempt(s: SessionState, answer: string): (r: Attempt)
    ensures r.correct <==> s.cellDrawerUnlocked && JavaTrim(answer) == CELL_DOOR_CODE
    ensures r.correct ==> r.after == (var u := s.(cellDoorUnlocked := true); if s.currentStage == CELL then u.(currentStage := DESK) else u)
    ensures !r.correct ==> r.after == s
    ensures Consistent(s) ==> Consistent(r.after)
    ensures Progressed(s, r.after)
  {
    if !s.cellDrawerUnlocked then Attempt(false, s)
    else if JavaTrim(answer) == CELL_DOOR_CODE then
      var unlocked := s.(cellDoorUnlocked := true);
      Attempt(true, if unlocked.cellDoorUnlocked && unlocked.currentStage == CELL then unlocked.(currentStage := DESK) else unlocked)
    else Attempt(false, s)
  }

  /** The desk drawer: only in stage DESK. */
  function DeskDrawerAttempt(s: SessionState, answer: string): (r: Attempt)
    ensures r.correct <==> s.currentStage == DESK && JavaTrim(answer) == DESK_DRAWER_CODE
    ensures Consistent(s) ==> Consistent(r.after)
    ensures Progressed(s, r.after)
  {
    if s.currentStage != DESK then Attempt(false, s)
    else if JavaTrim(answer) == DESK_DRAWER_CODE then Attempt(true, s.(deskDrawerUnlocked := true))
    else Attempt(false, s)
  }

  /** The final door: needs the desk drawer open and stage DESK; it moves DESK to ESCAPED. */
  function FinalDoorAttempt(s: SessionState, answer: string): (r: Attempt)
    ensures r.correct <==> s.deskDrawerUnlocked && s.currentStage == DESK && JavaTrim(answer) == FINAL_DOOR_CODE
    ensures r.correct ==> r.after.currentStage == ESCAPED
    ensures Consistent(s) ==> Consistent(r.after)
    ensures Progressed(s, r.after)
  {
    if !s.deskDrawerUnlocked then Attempt(false, s)
    else if s.currentStage != DESK then Attempt(false, s)
    else if JavaTrim(answer) == FINAL_DOOR_CODE then
      var unlocked := s.(finalDoorUnlocked := true);
      Attempt(true, if unlocked.currentStage == DESK then unlocked.(currentStage := ESCAPED) else unlocked)
    else Attempt(false, s)
  }

  method ValidateCellDrawer(session: GameSession, answer: string, now: nat) returns (correct: bool)
    modifies session
    ensures correct == CellDrawerAttempt(old(session.State()), answer).correct
    ensures session.State() == CellDrawerAttempt(old(session.State()), answer).after
    ensures correct ==> session.State() == old(session.State()).(cellDrawerUnlocked := true)
    ensures correct ==> SavedAt(session, now)
    ensures !correct ==> unchanged(session)
  {
    var stored := session.State();
    if JavaTrim(answer) == CELL_DRAWER_CODE {
      session.cellDrawerUnlocked := true;
      session.Save(stored, now);
      return true;
    }
    return false;
  }

  method ValidateCellDoor(session: GameSession, answer: string, now: nat) returns (correct: bool)
    modifies session
    ensures correct == CellDoorAttempt(old(session.State()), answer).correct
    ensures session.State() == CellDoorAttempt(old(session.State()), answer).after
    ensures !old(session.cellDrawerUnlocked) ==> !correct && unchanged(session)
    ensures correct ==> session.cellDoorUnlocked
    ensures correct ==> session.State() == (var u := old(session.State()).(cellDoorUnlocked := true);
                                            if u.currentStage == CELL then u.(currentStage := DESK) else u)
    ensures correct && old(session.currentStage) == CELL ==> session.currentStage == DESK
    ensures correct && old(session.currentStage) != CELL ==> session.currentStage == old(session.currentStage)
    ensures correct ==> SavedAt(session, now)
    ensures !correct ==> unchanged(session)
  {
    var stored := session.State();
    if !session.cellDrawerUnlocked {
      return false;
    }
    if JavaTrim(answer) == CELL_DOOR_CODE {
      session.cellDoorUnlocked := true;
      if session.cellDoorUnlocked && session.currentStage == CELL {
        session.currentStage := DESK;
      }
      session.Save(stored, now);
      return true;
    }
    return false;
  }

  method ValidateDeskDrawer(session: GameSession, answer: string, now: nat) returns (correct: bool)
    modifies session
    ensures correct == DeskDrawerAttempt(old(session.State()), answer).correct
    ensures session.State() == DeskDrawerAttempt(old(session.State()), answer).after
    ensures correct ==> session.State() == old(session.State()).(deskDrawerUnlocked := true)
    ensures correct ==> SavedAt(session, now)
    ensures !correct ==> unchanged(session)
  {
    var stored := session.State();
    if session.currentStage != DESK {
      return false;
    }
    if JavaTrim(answer) == DESK_DRAWER_CODE {
      session.deskDrawerUnlocked := true;
      session.Save(stored, now);
      return true;
    }
    return false;
  }

  method ValidateFinalDoor(session: GameSession, answer: string, now: nat) returns (correct: bool)
    modifies session
    ensures correct == FinalDoorAttempt(old(session.State()), answer).correct
    ensures session.State() == FinalDoorAttempt(old(session.State()), answer).after
    ensures correct ==> session.State() == old(session.State()).(finalDoorUnlocked := true, currentStage := ESCAPED)
    ensures correct ==> SavedAt(session, now)
    ensures !correct ==> unchanged(session)
  {
    var stored := session.State();
    if !session.deskDrawerUnlocked {
      return false;
    }
    if session.currentStage != DESK {
      return false;
    }
    if JavaTrim(answer) == FINAL_DOOR_CODE {
      session.finalDoorUnlocked := true;
      if session.currentStage == DESK {
        session.currentStage := ESCAPED;
      }
      session.Save(stored, now);
      return true;
    }
    return false;
  }

  /** The lock ids the endpoints use. */
  const LOCK_TYPES: seq<string> := ["cell-drawer", "cell-door", "desk-drawer", "final-door"]

  /** The camel-case name of a lock id; null for anything else. */
  function GetLockName(lockType: string): (r: Option<string>)
    ensures r.Some? <==> lockType in LOCK_TYPES
    ensures lockType == "cell-drawer" ==> r == Some("cellDrawer")
    ensures lockType == "cell-door" ==> r == Some("cellDoor")
    ensures lockType == "desk-drawer" ==> r == Some("deskDrawer")
    ensures lockType == "final-door" ==> r == Some("finalDoor")
  {
    match lockType
    case "cell-drawer" => Some("cellDrawer")
    case "cell-door" => Some("cellDoor")
    case "desk-drawer" => Some("deskDrawer")
    case "final-door" => Some("finalDoor")
    case _ => None
  }

  /** Different lock ids never share a name. */
  lemma LockNamesDistinct(a: string, b: string)
    requires GetLockName(a).Some? && GetLockName(a) == GetLockName(b)
    ensures a == b
  {
  }

  /** Re-submitting a correct code leaves the state as the first success left it (cell drawer and cell door). */
  lemma CellLocksIdempotent(s: SessionState, answer: string)
    ensures var r := CellDrawerAttempt(s, answer);
            r.correct ==> CellDrawerAttempt(r.after, answer) == r
    ensures var r := CellDoorAttempt(s, answer);
            r.correct ==> CellDoorAttempt(r.after, answer) == r
  {
  }

  /** The desk drawer stays idempotent while the stage is DESK; once the final door moved the stage to
      ESCAPED, re-submitting the desk-drawer or final-door code is rejected (state unchanged). */
  lemma DeskLocksAfterEscape(s: SessionState, answer: string)
    ensures var r := DeskDrawerAttempt(s, answer);
            r.correct ==> DeskDrawerAttempt(r.after, answer) == r
    ensures var r := FinalDoorAttempt(s, answer);
            r.correct ==> FinalDoorAttempt(r.after, answer) == Attempt(false, r.after)
    ensures s.currentStage == ESCAPED ==> DeskDrawerAttempt(s, answer) == Attempt(false, s)
  {
  }

  /** Submitting the cell-door code first, on a new session, is refused and changes nothing. */
  lemma CellDoorBeforeDrawer(answer: string)
    ensures CellDoorAttempt(InitialState(), answer) == Attempt(false, InitialState())
  {
  }
}
