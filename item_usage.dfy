/** ItemUsageService: using the rod and the desk key, and picking up the rod. */
module ItemUsageService {
  import opened Wrappers
  import opened Text
  import opened GameSessionModel

  /** Java `literal.equalsIgnoreCase(x)`: false when `x` is null. */
  predicate NamedIgnoringCase(literal: string, x: Option<string>)
  {
    x.Some? && EqualsIgnoreCase(literal, x.value)
  }

  /** The rod retrieves the desk key through the bars: stage CELL, rod held, target null, "desk" or
      "key", drawer open and key not yet held. */
  function RodUse(s: SessionState, target: Option<string>): (r: Attempt)
    ensures r.correct <==> && s.currentStage == CELL && s.hasRod && s.cellDrawerUnlocked && !s.hasDeskKey
                           && (target.None? || NamedIgnoringCase("desk", target) || NamedIgnoringCase("key", target))
    ensures r.correct ==> r.after.hasDeskKey
    ensures Consistent(s) ==> Consistent(r.after)
    ensures Progressed(s, r.after)
  {
    if s.currentStage != CELL then Attempt(false, s)
    else if !s.hasRod then Attempt(false, s)
    else if target.None? || NamedIgnoringCase("desk", target) || NamedIgnoringCase("key", target) then
      if s.cellDrawerUnlocked && !s.hasDeskKey then Attempt(true, s.(hasDeskKey := true))
      else Attempt(false, s)
    else Attempt(false, s)
  }

  /** The desk key has no effect yet: every path reports failure. */
  function DeskKeyUse(s: SessionState, target: Option<string>): (r: Attempt)
    ensures r == Attempt(false, s)
  {
    if s.currentStage != DESK then Attempt(false, s)
    else if !s.hasDeskKey then Attempt(false, s)
    else Attempt(false, s)
  }

  /** Item dispatch: "rod" to the rod, "deskKey" or "key" to the key, ignoring case; anything else fails. */
  function ItemUse(s: SessionState, item: Option<string>, target: Option<string>): (r: Attempt)
    ensures NamedIgnoringCase("rod", item) ==> r == RodUse(s, target)
    ensures !NamedIgnoringCase("rod", item) && (NamedIgnoringCase("deskKey", item) || NamedIgnoringCase("key", item)) ==>
              r == DeskKeyUse(s, target)
    ensures !NamedIgnoringCase("rod", item) ==> r == Attempt(false, s)
    ensures Consistent(s) ==> Consistent(r.after)
    ensures Progressed(s, r.after)
  {
    if NamedIgnoringCase("rod", item) then RodUse(s, target)
    else if NamedIgnoringCase("deskKey", item) || NamedIgnoringCase("key", item) then DeskKeyUse(s, target)
    else Attempt(false, s)
  }

  /** Picking up the rod: only with the drawer open and no rod held. */
  function RodAcquired(s: SessionState): (t: SessionState)
    ensures t.hasRod <==> s.hasRod || s.cellDrawerUnlocked
    ensures t.(hasRod := s.hasRod) == s
    ensures Consistent(s) ==> Consistent(t)
    ensures Progressed(s, t)
  {
    if s.cellDrawerUnlocked && !s.hasRod then s.(hasRod := true) else s
  }

  lemma RodAcquiredIdempotent(s: SessionState)
    ensures RodAcquired(RodAcquired(s)) == RodAcquired(s)
  {
  }

  /** Once the desk key is held, using the rod again fails and changes nothing. */
  lemma SecondRodUseFails(s: SessionState, target: Option<string>)
    requires RodUse(s, target).correct
    ensures RodUse(RodUse(s, target).after, target) == Attempt(false, RodUse(s, target).after)
  {
  }

  method UseItem(session: GameSession, item: Option<string>, target: Option<string>, now: nat) returns (ok: bool)
    modifies session
    ensures ok == ItemUse(old(session.State()), item, target).correct
    ensures session.State() == ItemUse(old(session.State()), item, target).after
    ensures ok ==> SavedAt(session, now)
    ensures !ok ==> unchanged(session)
  {
    if NamedIgnoringCase("rod", item) {
      ok := UseRod(session, target, now);
    } else if NamedIgnoringCase("deskKey", item) || NamedIgnoringCase("key", item) {
      ok := UseDeskKey(session, target);
    } else {
      ok := false;
    }
  }

  method UseRod(session: GameSession, target: Option<string>, now: nat) returns (ok: bool)
    modifies session
    ensures ok == RodUse(old(session.State()), target).correct
    ensures session.State() == RodUse(old(session.State()), target).after
    ensures ok ==> session.State() == old(session.State()).(hasDeskKey := true)
    ensures ok ==> SavedAt(session, now)
    ensures !ok ==> unchanged(session)
  {
    var stored := session.State();
    if session.currentStage != CELL {
      return false;
    }
    if !session.hasRod {
      return false;
    }
    if target.None? || NamedIgnoringCase("desk", target) || NamedIgnoringCase("key", target) {
      if session.cellDrawerUnlocked && !session.hasDeskKey {
        session.hasDeskKey := true;
        session.Save(stored, now);
        return true;
      }
    }
    return false;
  }

  method UseDeskKey(session: GameSession, target: Option<string>) returns (ok: bool)
    ensures !ok
  {
    if session.currentStage != DESK {
      return false;
    }
    if !session.hasDeskKey {
      return false;
    }
    return false;
  }

  method AcquireRod(session: GameSession, now: nat)
    modifies session
    ensures session.State() == RodAcquired(old(session.State()))
    ensures old(session.cellDrawerUnlocked && !session.hasRod) ==> session.hasRod && SavedAt(session, now)
    ensures !old(session.cellDrawerUnlocked && !session.hasRod) ==> unchanged(session)
  {
    var stored := session.State();
    if session.cellDrawerUnlocked && !session.hasRod {
      session.hasRod := true;
      session.Save(stored, now);
    }
  }
}
