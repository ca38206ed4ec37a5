/** GameSessionService: creating, finding and converting sessions, and the per-key inspection
    counts. The session repository is an in-memory map from id to entity. */
module GameSessionService {
  import opened Wrappers
  import opened Text
  import opened Collections
  import opened Dto
  import opened GameSessionModel

  datatype ServiceError = UserNotFound

  /** Java string concatenation renders a null string as "null". */
  function JavaString(s: Option<string>): string
  {
    if s.Some? then s.value else "null"
  }

  /** The count key: `stage + "_" + area`, or `stage + "_scene"` without an area. */
  function InspectionKey(stage: Option<string>, area: Option<string>): string
  {
    if area.Some? then JavaString(stage) + "_" + area.value else JavaString(stage) + "_scene"
  }

  /** Within one stage, different areas count separately. */
  lemma {:induction false} AreaKeysDistinct(stage: Option<string>, a: string, b: string)
    requires a != b
    ensures InspectionKey(stage, Some(a)) != InspectionKey(stage, Some(b))
  {
    var p := JavaString(stage) + "_";
    assert InspectionKey(stage, Some(a)) == p + a;
    assert InspectionKey(stage, Some(b)) == p + b;
    assert (p + a)[|p|..] == a;
    assert (p + b)[|p|..] == b;
  }

  /** An inspection without an area shares its counter with the area literally named "scene". */
  lemma SceneKeyShared(stage: Option<string>)
    ensures InspectionKey(stage, None) == InspectionKey(stage, Some("scene"))
  {
  }

  /** `counts.getOrDefault(key, 0)`. */
  function CountOf(counts: map<string, int>, key: string): int
  {
    if key in counts then counts[key] else 0
  }

  /** `counts.put(key, counts.getOrDefault(key, 0) + 1)`. */
  function Incremented(counts: map<string, int>, key: string): (r: map<string, int>)
    ensures CountOf(r, key) == CountOf(counts, key) + 1
    ensures forall k | k != key :: CountOf(r, k) == CountOf(counts, k)
    ensures r.Keys == counts.Keys + {key}
  {
    counts[key := CountOf(counts, key) + 1]
  }

  /** The fallback of `parseInspectionCounts`: null or blank JSON, or JSON the decoder rejects
      (`decode` returns None, standing for the exception), gives an empty map. */
  function ParseInspectionCounts(json: Option<string>, decode: string -> Option<map<string, int>>): (r: map<string, int>)
    ensures json.None? ==> r == map[]
    ensures json.Some? && JavaTrim(json.value) == "" ==> r == map[]
    ensures json.Some? && JavaTrim(json.value) != "" && decode(json.value).None? ==> r == map[]
    ensures json.Some? && JavaTrim(json.value) != "" && decode(json.value).Some? ==> r == decode(json.value).value
  {
    if json.None? || JavaTrim(json.value) == "" then map[]
    else match decode(json.value)
      case Some(m) => m
      case None => map[]
  }

  method IncrementInspectionCount(session: GameSession, stage: Option<string>, area: Option<string>, now: nat)
    modifies session
    ensures session.State() == old(session.State()).(inspectionCounts := Incremented(old(session.inspectionCounts), InspectionKey(stage, area)))
    ensures CountOf(session.inspectionCounts, InspectionKey(stage, area)) == old(CountOf(session.inspectionCounts, InspectionKey(stage, area))) + 1
    ensures SavedAt(session, now)
  {
    var stored := session.State();
    var key := InspectionKey(stage, area);
    session.inspectionCounts := Incremented(session.inspectionCounts, key);
    session.Save(stored, now);
  }

  function GetInspectionCount(session: GameSession, stage: Option<string>, area: Option<string>): (n: int)
    reads session
    ensures InspectionKey(stage, area) !in session.inspectionCounts ==> n == 0
    ensures InspectionKey(stage, area) in session.inspectionCounts ==> n == session.inspectionCounts[InspectionKey(stage, area)]
  {
    CountOf(session.inspectionCounts, InspectionKey(stage, area))
  }

  /** The response view of a session: every field is filled, so the client reads each flag exactly as stored. */
  function ConvertToDTO(id: int, s: SessionState): (d: GameStateDTO)
    ensures d.gameSessionId == Some(id) && d.currentStage == Some(s.currentStage)
    ensures d.hasRod == Some(s.hasRod) && d.hasDeskKey == Some(s.hasDeskKey) && d.hasMetalPiece == Some(s.hasMetalPiece)
    ensures d.cellDrawerUnlocked == Some(s.cellDrawerUnlocked) && d.cellDoorUnlocked == Some(s.cellDoorUnlocked)
    ensures d.deskDrawerUnlocked == Some(s.deskDrawerUnlocked) && d.finalDoorUnlocked == Some(s.finalDoorUnlocked)
    ensures d.inspectionCounts == Some(s.inspectionCounts)
  {
    GameStateDTO(Some(id), Some(s.currentStage), Some(s.hasRod), Some(s.hasDeskKey), Some(s.hasMetalPiece),
                 Some(s.cellDrawerUnlocked), Some(s.cellDoorUnlocked), Some(s.deskDrawerUnlocked), Some(s.finalDoorUnlocked),
                 Some(s.inspectionCounts))
  }

  /** The ordering key of "latest": `lastUpdated`, a session never saved ranking below every saved one. */
  function Stamp(session: GameSession): int
    reads session
  {
    if session.lastUpdated.Some? then session.lastUpdated.value else -1
  }

  /** The users and game-session repositories. */
  class SessionStore {
    var users: set<UserId>
    var sessions: map<int, GameSession>
    var nextId: int

    ghost predicate Valid()
      reads this
    {
      forall id | id in sessions :: sessions[id].id == id && id < nextId
    }

    constructor (users: set<UserId>)
      ensures Valid() && this.users == users && sessions == map[]
    {
      this.users := users;
      sessions := map[];
      nextId := 1;
    }

    /** The entity stored under `sessionId`, as a set (empty when there is none). */
    function Footprint(sessionId: int): set<GameSession>
      reads this
    {
      if sessionId in sessions then {sessions[sessionId]} else {}
    }

    /** A new session at stage CELL with every flag false and no counts, stored under a fresh id;
        an unknown user is an error and stores nothing. */
    method StartNewSession(userId: UserId, now: nat) returns (r: Result<GameSession, ServiceError>)
      requires Valid()
      modifies this
      ensures Valid() && users == old(users)
      ensures userId !in users ==> r == Failure(UserNotFound) && sessions == old(sessions) && nextId == old(nextId)
      ensures userId in users ==> && r.Success? && fresh(r.value)
                                  && r.value.id == old(nextId) && r.value.userId == userId
                                  && r.value.State() == InitialState()
                                  && r.value.startTime == Some(now) && r.value.lastUpdated == Some(now)
                                  && sessions == old(sessions)[old(nextId) := r.value]
                                  && nextId == old(nextId) + 1
    {
      if userId !in users {
        return Failure(UserNotFound);
      }
      var session := new GameSession(nextId, userId);
      session.UpdateTimestamp(now);
      sessions := sessions[nextId := session];
      nextId := nextId + 1;
      return Success(session);
    }

    function GetSessionById(sessionId: int): (r: Option<GameSession>)
      reads this
      ensures r.Some? <==> sessionId in sessions
      ensures r.Some? ==> r.value == sessions[sessionId]
    {
      if sessionId in sessions then Some(sessions[sessionId]) else None
    }

    /** With a user id, only that user's session is found (an unknown user is an error);
        without one, the lookup is by id alone. */
    function GetSession(sessionId: int, userId: Option<UserId>): (r: Result<Option<GameSession>, ServiceError>)
      reads this
      ensures userId.Some? && userId.value !in users ==> r == Failure(UserNotFound)
      ensures r.Success? && r.value.Some? ==> sessionId in sessions && r.value.value == sessions[sessionId]
      ensures r.Success? && r.value.Some? && userId.Some? ==> r.value.value.userId == userId.value
      ensures userId.Some? && userId.value in users ==>
                r == Success(if sessionId in sessions && sessions[sessionId].userId == userId.value then Some(sessions[sessionId]) else None)
      ensures userId.None? ==> r == Success(GetSessionById(sessionId))
    {
      if userId.Some? then
        if userId.value !in users then Failure(UserNotFound)
        else if sessionId in sessions && sessions[sessionId].userId == userId.value then Success(Some(sessions[sessionId]))
        else Success(None)
      else Success(GetSessionById(sessionId))
    }

    /** The user's session with the greatest `lastUpdated`, or nothing when the user has none. */
    method GetLatestSession(userId: UserId) returns (r: Result<Option<GameSession>, ServiceError>)
      ensures r == Failure(UserNotFound) <==> userId !in users
      ensures r == Success(None) ==> forall id | id in sessions :: sessions[id].userId != userId
      ensures r.Success? && r.value.Some? ==>
                && r.value.value in sessions.Values && r.value.value.userId == userId
                && forall id | id in sessions && sessions[id].userId == userId :: Stamp(sessions[id]) <= Stamp(r.value.value)
      ensures userId in users && (exists id | id in sessions :: sessions[id].userId == userId) ==> r.Success? && r.value.Some?
    {
      if userId !in users {
        return Failure(UserNotFound);
      }
      var stamps := map id | id in sessions && sessions[id].userId == userId :: Stamp(sessions[id]);
      assert forall id | id in sessions && sessions[id].userId == userId :: id in stamps;
      if |stamps| == 0 {
        assert stamps.Keys == {};
        return Success(None);
      }
      ghost var best := MaxKey(stamps);
      var k :| k in stamps && forall j | j in stamps :: stamps[j] <= stamps[k];
      return Success(Some(sessions[k]));
    }
  }
}
