/** InventoryPanel: the items the player holds, as listed from the state's flags. */
module InventoryPanel {
  import opened Wrappers
  import opened Collections
  import opened Dto

  datatype Item = Rod | DeskKey | MetalPiece

  /** The items list built by `InventoryPanel`, or None when there is no state (nothing is
      rendered). The list is built by conditional pushes in the order rod, desk key, metal piece. */
  method InventoryItems(gameState: Option<GameStateDTO>) returns (items: Option<seq<Item>>)
    ensures gameState.None? <==> items.None?
    ensures items.Some? ==> (Rod in items.value <==> Truthy(gameState.value.hasRod))
    ensures items.Some? ==> (DeskKey in items.value <==> Truthy(gameState.value.hasDeskKey))
    ensures items.Some? ==> (MetalPiece in items.value <==> Truthy(gameState.value.hasMetalPiece))
    ensures items.Some? ==> NoDuplicates(items.value)
    ensures items.Some? ==> forall i, j | 0 <= i < j < |items.value| :: Position(items.value[i]) < Position(items.value[j])
    ensures items.Some? ==>
              (items.value == [] <==> (!Truthy(gameState.value.hasRod) && !Truthy(gameState.value.hasDeskKey) && !Truthy(gameState.value.hasMetalPiece)))
  {
    if gameState.None? {
      return None;
    }
    var state := gameState.value;
    var list: seq<Item> := [];
    if Truthy(state.hasRod) {
      list := list + [Rod];
    }
    if Truthy(state.hasDeskKey) {
      list := list + [DeskKey];
    }
    if Truthy(state.hasMetalPiece) {
      list := list + [MetalPiece];
    }
    return Some(list);
  }

  /** The display order: rod, desk key, metal piece. */
  function Position(item: Item): nat
  {
    match item
    case Rod => 0
    case DeskKey => 1
    case MetalPiece => 2
  }
}
