/** The JSON view of a session that the backend returns and the frontend reads
    (GameStateDTO). Java `Boolean`/`String` fields may be null, hence `Option`. */
module Dto {
  import opened Wrappers

  datatype GameStateDTO = GameStateDTO(
    gameSessionId: Option<int>,
    currentStage: Option<string>,
    hasRod: Option<bool>,
    hasDeskKey: Option<bool>,
    hasMetalPiece: Option<bool>,
    cellDrawerUnlocked: Option<bool>,
    cellDoorUnlocked: Option<bool>,
    deskDrawerUnlocked: Option<bool>,
    finalDoorUnlocked: Option<bool>,
    inspectionCounts: Option<map<string, int>>)

  /** A DTO whose fields are all null, the starting point of a partial update. */
  function EmptyDTO(): GameStateDTO
  {
    GameStateDTO(None, None, None, None, None, None, None, None, None, None)
  }

  /** JavaScript truthiness of a JSON boolean that may be missing: only `true` is truthy. */
  predicate Truthy(b: Option<bool>)
  {
    b == Some(true)
  }
}
