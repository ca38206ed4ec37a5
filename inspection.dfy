/** InspectionService: the text shown for an inspection, chosen by stage, lock and item flags and
    the number of times that (stage, area) was inspected. */
module InspectionService {
  import opened Wrappers
  import opened GameSessionModel
  import opened GameSessionService

  /** A fixed text, or a random pick among several. */
  datatype TextChoice = Fixed(text: string) | OneOf(texts: seq<string>)

  function Candidates(c: TextChoice): seq<string>
  {
    match c
    case Fixed(t) => [t]
    case OneOf(ts) => ts
  }

  const NOTHING_STANDS_OUT := "You look around, but nothing stands out."

  const CELL_FLAVOUR_TEXTS: seq<string> := [
    "The cell is dimly lit. Stone walls surround you.",
    "You notice the bars are sturdy, made of iron.",
    "There's a small window, too high to reach.",
    "The floor is cold and rough beneath your feet.",
    "A single cot sits in the corner, covered with a thin blanket."
  ]
  const CELL_DRAWER_HINT := "There's a small drawer in the corner, but it's locked."
  const CELL_ROD_HINT := "The drawer is open. Inside, you see a metal rod, about a foot long. It might be useful."
  const CELL_KEY_HINT := "Through the bars, you can see a key on the deputy's desk, just out of reach. Perhaps you can use something to retrieve it."
  const CELL_KEY_RETRIEVED := "You successfully retrieved the key using the rod. It might unlock something."
  const CELL_DOOR_OPEN := "The cell door is now unlocked. You can move forward."
  const CELL_DEFAULT_TEXTS: seq<string> := [
    "You examine the cell more carefully, but find nothing new.",
    "The stone walls offer no secrets.",
    "Time passes slowly in this place."
  ]

  const DESK_FLAVOUR_TEXTS: seq<string> := [
    "The deputy's desk is cluttered with paperwork.",
    "A lamp casts shadows across the room.",
    "You're now outside the cell, but still in the prison.",
    "The desk drawer appears to be locked.",
    "Various items are scattered on the desk surface."
  ]
  const DESK_DRAWER_HINT := "The desk drawer is locked. You'll need to find the right combination."
  const DESK_NOTE_TEXT := "The drawer is open. Inside, you find a note with numbers: 4-7-2-9. This might be important."
  const DESK_ESCAPED_TEXT := "The path to freedom is clear. You have escaped!"
  const DESK_DEFAULT_TEXTS: seq<string> := [
    "You search the desk area, but find nothing new.",
    "The paperwork reveals nothing useful.",
    "Time is running out."
  ]

  /** One of the cell's progress hints is due: the drawer, the rod, the key, or the key retrieved. */
  predicate CellHintDue(s: SessionState, count: int)
  {
    || (!s.cellDrawerUnlocked && count == 4)
    || (s.cellDrawerUnlocked && !s.hasRod && count >= 5)
    || (s.hasRod && !s.hasDeskKey && count >= 6)
    || (s.hasDeskKey && count >= 7)
  }

  /** The cell's text for the `count`-th inspection of an area. */
  function CellText(s: SessionState, count: int): (c: TextChoice)
    ensures count <= 3 ==> c == OneOf(CELL_FLAVOUR_TEXTS)
    ensures count == 4 && !s.cellDrawerUnlocked ==> c == Fixed(CELL_DRAWER_HINT)
    ensures count >= 5 && s.cellDrawerUnlocked && !s.hasRod ==> c == Fixed(CELL_ROD_HINT)
    ensures count >= 6 && s.hasRod && !s.hasDeskKey ==> c == Fixed(CELL_KEY_HINT)
    ensures count >= 7 && s.hasDeskKey && (s.hasRod || !s.cellDrawerUnlocked) ==> c == Fixed(CELL_KEY_RETRIEVED)
    ensures count > 3 && !CellHintDue(s, count) && s.cellDoorUnlocked ==> c == Fixed(CELL_DOOR_OPEN)
    ensures count > 3 && !CellHintDue(s, count) && !s.cellDoorUnlocked ==> c == OneOf(CELL_DEFAULT_TEXTS)
    ensures |Candidates(c)| > 0
  {
    if count <= 3 then OneOf(CELL_FLAVOUR_TEXTS)
    else if !s.cellDrawerUnlocked && count == 4 then Fixed(CELL_DRAWER_HINT)
    else if s.cellDrawerUnlocked && !s.hasRod && count >= 5 then Fixed(CELL_ROD_HINT)
    else if s.hasRod && !s.hasDeskKey && count >= 6 then Fixed(CELL_KEY_HINT)
    else if s.hasDeskKey && count >= 7 then Fixed(CELL_KEY_RETRIEVED)
    else if s.cellDoorUnlocked then Fixed(CELL_DOOR_OPEN)
    else OneOf(CELL_DEFAULT_TEXTS)
  }

  /** The desk's text for the `count`-th inspection of an area. */
  function DeskText(s: SessionState, count: int): (c: TextChoice)
    ensures count <= 3 ==> c == OneOf(DESK_FLAVOUR_TEXTS)
    ensures count == 4 && !s.deskDrawerUnlocked ==> c == Fixed(DESK_DRAWER_HINT)
    ensures count > 3 && s.deskDrawerUnlocked && !s.finalDoorUnlocked ==> c == Fixed(DESK_NOTE_TEXT)
    ensures count > 3 && s.finalDoorUnlocked && (s.deskDrawerUnlocked || count > 4) ==> c == Fixed(DESK_ESCAPED_TEXT)
    ensures count > 4 && !s.deskDrawerUnlocked && !s.finalDoorUnlocked ==> c == OneOf(DESK_DEFAULT_TEXTS)
    ensures |Candidates(c)| > 0
  {
    if count <= 3 then OneOf(DESK_FLAVOUR_TEXTS)
    else if !s.deskDrawerUnlocked && count == 4 then Fixed(DESK_DRAWER_HINT)
    else if s.deskDrawerUnlocked && !s.finalDoorUnlocked then Fixed(DESK_NOTE_TEXT)
    else if s.finalDoorUnlocked then Fixed(DESK_ESCAPED_TEXT)
    else OneOf(DESK_DEFAULT_TEXTS)
  }

  /** The text for a requested stage: CELL and DESK have their own rules, every other stage
      (including null) gets one fixed text. */
  function InspectionText(s: SessionState, stage: Option<string>, count: int): (c: TextChoice)
    ensures stage == Some(CELL) ==> c == CellText(s, count)
    ensures stage == Some(DESK) ==> c == DeskText(s, count)
    ensures stage != Some(CELL) && stage != Some(DESK) ==> c == Fixed(NOTHING_STANDS_OUT)
    ensures |Candidates(c)| > 0
  {
    if stage == Some(CELL) then CellText(s, count)
    else if stage == Some(DESK) then DeskText(s, count)
    else Fixed(NOTHING_STANDS_OUT)
  }

  /** `getRandomText`: some element of the list (the random generator is not modelled). */
  method RandomText(texts: seq<string>) returns (t: string)
    requires |texts| > 0
    ensures t in texts
  {
    var i :| 0 <= i < |texts|;
    t := texts[i];
  }

  method Choose(c: TextChoice) returns (t: string)
    requires |Candidates(c)| > 0
    ensures t in Candidates(c)
  {
    match c
    case Fixed(text) => t := text;
    case OneOf(texts) => t := RandomText(texts);
  }

  /** Counts the inspection first, then picks the text for the new count; no flag changes. */
  method GetInspectionText(session: GameSession, stage: Option<string>, area: Option<string>, now: nat) returns (text: string)
    modifies session
    ensures session.State() == old(session.State()).(inspectionCounts := Incremented(old(session.inspectionCounts), InspectionKey(stage, area)))
    ensures SavedAt(session, now)
    ensures text in Candidates(InspectionText(session.State(), stage, GetInspectionCount(session, stage, area)))
    ensures GetInspectionCount(session, stage, area) == old(GetInspectionCount(session, stage, area)) + 1
  {
    IncrementInspectionCount(session, stage, area, now);
    var count := GetInspectionCount(session, stage, area);
    text := Choose(InspectionText(session.State(), stage, count));
  }

  /** The first three inspections of any cell or desk area only ever give flavour text. */
  lemma FirstInspectionsAreFlavour(s: SessionState, stage: Option<string>, count: int)
    requires count <= 3
    ensures stage == Some(CELL) ==> Candidates(InspectionText(s, stage, count)) == CELL_FLAVOUR_TEXTS
    ensures stage == Some(DESK) ==> Candidates(InspectionText(s, stage, count)) == DESK_FLAVOUR_TEXTS
  {
  }
}
