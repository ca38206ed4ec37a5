/** GameController: the game endpoints. Each handler looks the session up, runs one service
    operation on it and answers with the converted state; the pure functions here say what each
    endpoint does to the session state. */
module GameController {
  import opened Wrappers
  import opened Dto
  import opened GameSessionModel
  import opened GameSessionService
  import opened LockValidationService
  import opened ItemUsageService
  import opened InspectionService

  /** An HTTP answer: 200 with a body, 404, 400, or 500 for an exception the handler does not catch. */
  datatype Reply<T> = Ok(body: T) | NotFound | BadRequest | ServerError

  datatype LockValidationResponse = LockValidationResponse(correct: bool, message: string, updatedState: GameStateDTO)
  datatype InspectionResponse = InspectionResponse(inspectionText: string, updatedState: GameStateDTO)

  const CORRECT_MESSAGE := "Correct!"
  const INCORRECT_MESSAGE := "Incorrect. Try again."
  const ITEM_USED_MESSAGE := "Item used successfully."
  const ITEM_REFUSED_MESSAGE := "Cannot use item in this context."

  /** `updateGameState`: each non-null stage, item or lock field of the request overwrites the
      session's; the metal piece and the inspection counts are not writable. */
  function Merge(s: SessionState, d: GameStateDTO): (t: SessionState)
    ensures t.hasMetalPiece == s.hasMetalPiece && t.inspectionCounts == s.inspectionCounts
    ensures d.currentStage.Some? ==> t.currentStage == d.currentStage.value
    ensures d.currentStage.None? ==> t.currentStage == s.currentStage
    ensures d.hasRod.Some? ==> t.hasRod == d.hasRod.value
    ensures d.hasRod.None? ==> t.hasRod == s.hasRod
    ensures d.hasDeskKey.Some? ==> t.hasDeskKey == d.hasDeskKey.value
    ensures d.hasDeskKey.None? ==> t.hasDeskKey == s.hasDeskKey
    ensures d.cellDrawerUnlocked.Some? ==> t.cellDrawerUnlocked == d.cellDrawerUnlocked.value
    ensures d.cellDrawerUnlocked.None? ==> t.cellDrawerUnlocked == s.cellDrawerUnlocked
    ensures d.cellDoorUnlocked.Some? ==> t.cellDoorUnlocked == d.cellDoorUnlocked.value
    ensures d.cellDoorUnlocked.None? ==> t.cellDoorUnlocked == s.cellDoorUnlocked
    ensures d.deskDrawerUnlocked.Some? ==> t.deskDrawerUnlocked == d.deskDrawerUnlocked.value
    ensures d.deskDrawerUnlocked.None? ==> t.deskDrawerUnlocked == s.deskDrawerUnlocked
    ensures d.finalDoorUnlocked.Some? ==> t.finalDoorUnlocked == d.finalDoorUnlocked.value
    ensures d.finalDoorUnlocked.None? ==> t.finalDoorUnlocked == s.finalDoorUnlocked
  {
    SessionState(Override(d.currentStage, s.currentStage), Override(d.hasRod, s.hasRod),
                 Override(d.hasDeskKey, s.hasDeskKey), s.hasMetalPiece,
                 Override(d.cellDrawerUnlocked, s.cellDrawerUnlocked), Override(d.cellDoorUnlocked, s.cellDoorUnlocked),
                 Override(d.deskDrawerUnlocked, s.deskDrawerUnlocked), Override(d.finalDoorUnlocked, s.finalDoorUnlocked),
                 s.inspectionCounts)
  }

  /** A request field that is not null replaces the stored value. */
  function Override<T>(field: Option<T>, stored: T): T
  {
    if field.Some? then field.value else stored
  }

  /** An empty request leaves the session as it is. */
  lemma MergeEmpty(s: SessionState)
    ensures Merge(s, EmptyDTO()) == s
  {
  }

  /** Sending back a state the server produced restores it, except the fields the endpoint
      does not write. */
  lemma MergeOfConvert(t: SessionState, id: int, s: SessionState)
    ensures Merge(t, ConvertToDTO(id, s)) == s.(hasMetalPiece := t.hasMetalPiece, inspectionCounts := t.inspectionCounts)
  {
  }

  /** The endpoint trusts the client: a request can open the cell door without the drawer, and
      turn a consistent session inconsistent. */
  lemma MergeCanSkipLocks()
    ensures var t := Merge(InitialState(), EmptyDTO().(cellDoorUnlocked := Some(true)));
            Consistent(InitialState()) && !Consistent(t) && t.cellDoorUnlocked && !t.cellDrawerUnlocked
  {
  }

  /** ... and it can relock what was opened. */
  lemma MergeCanRelock(s: SessionState)
    requires s.cellDrawerUnlocked
    ensures !Progressed(s, Merge(s, EmptyDTO().(cellDrawerUnlocked := Some(false))))
  {
  }

  /** `transitionStage`: DESK needs the cell door open and ESCAPED the final door; None is the
      400 answer. Any other target, including unknown strings, is accepted as it is (the 20-character limit of
      the stage column is not modelled). */
  function Transition(s: SessionState, target: string): (r: Option<SessionState>)
    ensures r.None? <==> (target == DESK && !s.cellDoorUnlocked) || (target == ESCAPED && !s.finalDoorUnlocked)
    ensures r.Some? ==> r.value == s.(currentStage := target)
  {
    if target == DESK && !s.cellDoorUnlocked then None
    else if target == ESCAPED && !s.finalDoorUnlocked then None
    else Some(s.(currentStage := target))
  }

  /** In a consistent session the lock services have already set the stage, so a transition that
      keeps the session consistent changes nothing. */
  lemma TransitionConsistentOnlyAsNoOp(s: SessionState, target: string)
    requires Consistent(s)
    requires Transition(s, target).Some? && Consistent(Transition(s, target).value)
    ensures Transition(s, target).value == s
  {
  }

  /** Going back to CELL after the cell door opened is accepted, and regresses and breaks the invariant. */
  lemma TransitionBackToCell(s: SessionState)
    requires Consistent(s) && s.currentStage == DESK
    ensures Transition(s, CELL).Some?
    ensures !Consistent(Transition(s, CELL).value) && !Progressed(s, Transition(s, CELL).value)
  {
  }

  /** An unknown stage name is accepted as well. */
  lemma TransitionToUnknownStage(s: SessionState)
    ensures Transition(s, "LOBBY") == Some(s.(currentStage := "LOBBY"))
    ensures !Consistent(Transition(s, "LOBBY").value)
  {
  }

  /** The `validateLock` switch: the four lock types; any other leaves `correct` false. */
  function LockAttempt(s: SessionState, lockType: string, answer: string): (r: Attempt)
    ensures lockType == "cell-drawer" ==> r == CellDrawerAttempt(s, answer)
    ensures lockType == "cell-door" ==> r == CellDoorAttempt(s, answer)
    ensures lockType == "desk-drawer" ==> r == DeskDrawerAttempt(s, answer)
    ensures lockType == "final-door" ==> r == FinalDoorAttempt(s, answer)
    ensures lockType !in LOCK_TYPES ==> r == Attempt(false, s)
    ensures Consistent(s) ==> Consistent(r.after)
    ensures Progressed(s, r.after)
  {
    if lockType == "cell-drawer" then CellDrawerAttempt(s, answer)
    else if lockType == "cell-door" then CellDoorAttempt(s, answer)
    else if lockType == "desk-drawer" then DeskDrawerAttempt(s, answer)
    else if lockType == "final-door" then FinalDoorAttempt(s, answer)
    else Attempt(false, s)
  }

  /** The lock response message. */
  function LockMessage(correct: bool): (m: string)
    ensures m == CORRECT_MESSAGE <==> correct
    ensures m == INCORRECT_MESSAGE <==> !correct
  {
    if correct then CORRECT_MESSAGE else INCORRECT_MESSAGE
  }

  /** The use-item response text. */
  function ItemMessage(success: bool): (m: string)
    ensures m == ITEM_USED_MESSAGE <==> success
    ensures m == ITEM_REFUSED_MESSAGE <==> !success
  {
    if success then ITEM_USED_MESSAGE else ITEM_REFUSED_MESSAGE
  }

  /** The inspection's effect on the session: the count goes up, and a CELL inspection with the
      drawer open and the rod not taken grants the rod from the fifth time on. The rod rule uses
      the stage sent with the request, not the session's stage. */
  function InspectEffect(s: SessionState, stage: Option<string>, area: Option<string>): (t: SessionState)
    ensures t.inspectionCounts == Incremented(s.inspectionCounts, InspectionKey(stage, area))
    ensures t.hasRod <==> s.hasRod || (stage == Some(CELL) && s.cellDrawerUnlocked && CountOf(s.inspectionCounts, InspectionKey(stage, area)) >= 4)
    ensures t.(hasRod := s.hasRod, inspectionCounts := s.inspectionCounts) == s
    ensures Consistent(s) ==> Consistent(t)
    ensures Progressed(s, t)
  {
    var counted := s.(inspectionCounts := Incremented(s.inspectionCounts, InspectionKey(stage, area)));
    if stage == Some(CELL) && counted.cellDrawerUnlocked && !counted.hasRod
       && CountOf(counted.inspectionCounts, InspectionKey(stage, area)) >= 5
    then RodAcquired(counted)
    else counted
  }

  /** In the cell, the rod hint is shown exactly when that same inspection grants the rod. */
  lemma RodHintIffRodGranted(s: SessionState, area: Option<string>)
    ensures var t := InspectEffect(s, Some(CELL), area);
            var count := CountOf(t.inspectionCounts, InspectionKey(Some(CELL), area));
            (!s.hasRod && t.hasRod) <==> CellText(s.(inspectionCounts := t.inspectionCounts), count) == Fixed(CELL_ROD_HINT)
  {
  }

  /** The player actions that go through the invariant-keeping services. */
  datatype Action =
    | Inspect(stage: Option<string>, area: Option<string>)
    | Unlock(lockType: string, answer: string)
    | Use(item: Option<string>, target: Option<string>)

  function Step(s: SessionState, a: Action): (t: SessionState)
    ensures Consistent(s) ==> Consistent(t)
    ensures Progressed(s, t)
  {
    match a
    case Inspect(stage, area) => InspectEffect(s, stage, area)
    case Unlock(lockType, answer) => LockAttempt(s, lockType, answer).after
    case Use(item, target) => ItemUse(s, item, target).after
  }

  function Replay(s: SessionState, actions: seq<Action>): SessionState
    decreases |actions|
  {
    if |actions| == 0 then s else Replay(Step(s, actions[0]), actions[1..])
  }

  /** Any sequence of inspections, lock attempts and item uses keeps a consistent session
      consistent and never moves it back. */
  lemma {:induction false} ReplayPreserves(s: SessionState, actions: seq<Action>)
    requires Consistent(s)
    ensures Consistent(Replay(s, actions)) && Progressed(s, Replay(s, actions))
    decreases |actions|
  {
    if |actions| > 0 {
      var t := Step(s, actions[0]);
      ReplayPreserves(t, actions[1..]);
      ProgressedTransitive(s, t, Replay(t, actions[1..]));
    }
  }

  /** An escaped, consistent session has every lock open. */
  lemma EscapedMeansAllUnlocked(s: SessionState)
    requires Consistent(s) && s.currentStage == ESCAPED
    ensures s.cellDrawerUnlocked && s.cellDoorUnlocked && s.deskDrawerUnlocked && s.finalDoorUnlocked
  {
  }

  /** The four codes in order take a new session to ESCAPED. */
  lemma Walkthrough()
    ensures Replay(InitialState(), [Unlock("cell-drawer", "1247"), Unlock("cell-door", "3589"),
                                    Unlock("desk-drawer", "4729"), Unlock("final-door", "8264")]).currentStage == ESCAPED
  {
  }

  /** `getGameSession` / `getLatestGameSession` lookups as answers; an unknown user is an
      uncaught exception. */
  function LookupReply(r: Result<Option<GameSession>, ServiceError>): (reply: Reply<GameStateDTO>)
    reads if r.Success? && r.value.Some? then {r.value.value} else {}
    ensures r.Failure? <==> reply == ServerError
    ensures r == Success(None) <==> reply == NotFound
    ensures r.Success? && r.value.Some? ==> reply == Ok(ConvertToDTO(r.value.value.id, r.value.value.State()))
  {
    match r
    case Failure(_) => ServerError
    case Success(None) => NotFound
    case Success(Some(session)) => Ok(ConvertToDTO(session.id, session.State()))
  }

  /** `startGameSession`: the initial state, or 400 for an unknown user. */
  method StartGameSession(store: SessionStore, userId: UserId, now: nat) returns (reply: Reply<GameStateDTO>)
    requires store.Valid()
    modifies store
    ensures store.Valid()
    ensures store.users == old(store.users)
    ensures userId !in store.users ==> reply == BadRequest && store.sessions == old(store.sessions) && store.nextId == old(store.nextId)
    ensures userId in store.users ==> && reply == Ok(ConvertToDTO(old(store.nextId), InitialState()))
                                      && old(store.nextId) in store.sessions
                                      && fresh(store.sessions[old(store.nextId)])
                                      && store.sessions[old(store.nextId)].State() == InitialState()
                                      && store.sessions == old(store.sessions)[old(store.nextId) := store.sessions[old(store.nextId)]]
                                      && store.nextId == old(store.nextId) + 1
  {
    var r := store.StartNewSession(userId, now);
    if r.Failure? {
      return BadRequest;
    }
    reply := Ok(ConvertToDTO(r.value.id, r.value.State()));
  }

  /** `updateGameState`: only the owner's session is found; the request's fields are merged in
      and the session saved. */
  method UpdateGameState(store: SessionStore, sessionId: int, userId: UserId, request: GameStateDTO, now: nat)
    returns (reply: Reply<GameStateDTO>)
    requires store.Valid()
    modifies store.Footprint(sessionId)
    ensures userId !in store.users ==> reply == ServerError
    ensures userId in store.users && (sessionId !in store.sessions || store.sessions[sessionId].userId != userId) ==>
              reply == NotFound
    ensures userId in store.users && sessionId in store.sessions && store.sessions[sessionId].userId == userId ==>
              var session := store.sessions[sessionId];
              && session.State() == Merge(old(session.State()), request)
              && SavedAt(session, now)
              && reply == Ok(ConvertToDTO(sessionId, session.State()))
    ensures reply.Ok? || unchanged(store.Footprint(sessionId))
  {
    var found := store.GetSession(sessionId, Some(userId));
    if found.Failure? {
      return ServerError;
    }
    if found.value.None? {
      return NotFound;
    }
    var session := found.value.value;
    var stored := session.State();
    var merged := Merge(session.State(), request);
    session.SetProgress(merged);
    session.Save(stored, now);
    reply := Ok(ConvertToDTO(session.id, session.State()));
  }

  /** `inspectScene`: by session id only; the text and the state after the inspection. */
  method InspectScene(store: SessionStore, sessionId: int, stage: Option<string>, area: Option<string>, now: nat)
    returns (reply: Reply<InspectionResponse>)
    requires store.Valid()
    modifies store.Footprint(sessionId)
    ensures sessionId !in store.sessions ==> reply == NotFound && unchanged(store.Footprint(sessionId))
    ensures sessionId in store.sessions ==>
              var session := store.sessions[sessionId];
              && session.State() == InspectEffect(old(session.State()), stage, area)
              && SavedAt(session, now)
              && reply.Ok? && reply.body.updatedState == ConvertToDTO(sessionId, session.State())
              && reply.body.inspectionText in
                   Candidates(InspectionText(old(session.State()).(inspectionCounts := session.inspectionCounts), stage,
                                             CountOf(session.inspectionCounts, InspectionKey(stage, area))))
  {
    var found := store.GetSessionById(sessionId);
    if found.None? {
      return NotFound;
    }
    var session := found.value;
    var text := GetInspectionText(session, stage, area, now);
    if stage == Some(CELL) && session.cellDrawerUnlocked && !session.hasRod {
      var count := GetInspectionCount(session, stage, area);
      if count >= 5 {
        AcquireRod(session, now);
      }
    }
    reply := Ok(InspectionResponse(text, ConvertToDTO(session.id, session.State())));
  }

  /** `validateLock`: by session id only; the verdict, its message and the state afterwards. */
  method ValidateLock(store: SessionStore, sessionId: int, lockType: string, answer: string, now: nat)
    returns (reply: Reply<LockValidationResponse>)
    requires store.Valid()
    modifies store.Footprint(sessionId)
    ensures sessionId !in store.sessions ==> reply == NotFound && unchanged(store.Footprint(sessionId))
    ensures sessionId in store.sessions ==>
              var session := store.sessions[sessionId];
              var attempt := LockAttempt(old(session.State()), lockType, answer);
              && session.State() == attempt.after
              && (attempt.correct ==> SavedAt(session, now))
              && (!attempt.correct ==> unchanged(session))
              && reply == Ok(LockValidationResponse(attempt.correct, LockMessage(attempt.correct),
                                                    ConvertToDTO(sessionId, session.State())))
  {
    var found := store.GetSessionById(sessionId);
    if found.None? {
      return NotFound;
    }
    var session := found.value;
    var correct := false;
    if lockType == "cell-drawer" {
      correct := ValidateCellDrawer(session, answer, now);
    } else if lockType == "cell-door" {
      correct := ValidateCellDoor(session, answer, now);
    } else if lockType == "desk-drawer" {
      correct := ValidateDeskDrawer(session, answer, now);
    } else if lockType == "final-door" {
      correct := ValidateFinalDoor(session, answer, now);
    }
    reply := Ok(LockValidationResponse(correct, LockMessage(correct), ConvertToDTO(session.id, session.State())));
  }

  /** `useItem`: by session id only; the item message and the state afterwards. */
  method UseItemEndpoint(store: SessionStore, sessionId: int, item: Option<string>, target: Option<string>, now: nat)
    returns (reply: Reply<InspectionResponse>)
    requires store.Valid()
    modifies store.Footprint(sessionId)
    ensures sessionId !in store.sessions ==> reply == NotFound && unchanged(store.Footprint(sessionId))
    ensures sessionId in store.sessions ==>
              var session := store.sessions[sessionId];
              var use := ItemUse(old(session.State()), item, target);
              && session.State() == use.after
              && (use.correct ==> SavedAt(session, now))
              && (!use.correct ==> unchanged(session))
              && reply == Ok(InspectionResponse(ItemMessage(use.correct), ConvertToDTO(sessionId, session.State())))
  {
    var found := store.GetSessionById(sessionId);
    if found.None? {
      return NotFound;
    }
    var session := found.value;
    var success := UseItem(session, item, target, now);
    reply := Ok(InspectionResponse(ItemMessage(success), ConvertToDTO(session.id, session.State())));
  }

  /** `transitionStage`: by session id only; 400 when the target's lock is still closed. */
  method TransitionStage(store: SessionStore, sessionId: int, target: string, now: nat)
    returns (reply: Reply<GameStateDTO>)
    requires store.Valid()
    modifies store.Footprint(sessionId)
    ensures sessionId !in store.sessions ==> reply == NotFound && unchanged(store.Footprint(sessionId))
    ensures sessionId in store.sessions ==>
              var session := store.sessions[sessionId];
              match Transition(old(session.State()), target)
              case None => reply == BadRequest && unchanged(session)
              case Some(t) => session.State() == t && SavedAt(session, now)
                              && reply == Ok(ConvertToDTO(sessionId, t))
  {
    var found := store.GetSessionById(sessionId);
    if found.None? {
      return NotFound;
    }
    var session := found.value;
    if target == DESK && !session.cellDoorUnlocked {
      return BadRequest;
    }
    if target == ESCAPED && !session.finalDoorUnlocked {
      return BadRequest;
    }
    var stored := session.State();
    session.currentStage := target;
    session.Save(stored, now);
    reply := Ok(ConvertToDTO(session.id, session.State()));
  }
}
