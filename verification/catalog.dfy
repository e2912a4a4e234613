/**
 * The static content catalog (training items, belts, avatars, colour themes)
 * that the game logic reads, and the lookups it performs over it. The catalog
 * content itself is a parameter of every operation.
 */
module Catalog {
  import opened Base

  /** A timed exercise. Its description and video reference are not modelled. */
  datatype TrainingItem = TrainingItem(
    id: string, title: string, duration: int, xp: int, staminaCost: int, requiredBelt: int)

  datatype Belt = Belt(level: int, name: string, color: string, minXp: int)

  datatype Avatar = Avatar(id: string, requiredBelt: int)

  datatype Theme = Theme(primary: string, secondary: string)

  /** `BELT_SYSTEM.find(b => b.level === level)`: the first belt of that level. */
  function FindBelt(belts: seq<Belt>, level: int): (r: Option<nat>)
    ensures r.Some? ==> r.value < |belts| && belts[r.value].level == level
                        && forall j :: 0 <= j < r.value ==> belts[j].level != level
    ensures r.None? <==> forall j :: 0 <= j < |belts| ==> belts[j].level != level
  {
    if belts == [] then None
    else if belts[0].level == level then Some(0)
    else match FindBelt(belts[1..], level)
         case None => None
         case Some(k) => Some(k + 1)
  }

  /**
   * `getBeltByLevel`: the first belt of the requested level, falling back to the
   * first belt of the catalog when there is none, so that a belt is always returned.
   */
  function GetBeltByLevel(belts: seq<Belt>, level: int): (r: Belt)
    requires |belts| > 0
    ensures r in belts
    ensures (exists j :: 0 <= j < |belts| && belts[j].level == level) ==> r.level == level
    ensures (forall j :: 0 <= j < |belts| ==> belts[j].level != level) ==> r == belts[0]
  {
    match FindBelt(belts, level)
    case Some(k) => belts[k]
    case None => belts[0]
  }

  /** `ALL_TRAINING_ITEMS.find(e => e.id === id)`. */
  function FindItem(items: seq<TrainingItem>, id: string): (r: Option<TrainingItem>)
    ensures r.Some? ==> r.value in items && r.value.id == id
    ensures r.None? <==> forall j :: 0 <= j < |items| ==> items[j].id != id
  {
    if items == [] then None
    else if items[0].id == id then Some(items[0])
    else FindItem(items[1..], id)
  }

  /** `array.filter(pred)` over catalog items, keeping their order. */
  function Filter(items: seq<TrainingItem>, keep: TrainingItem -> bool): (r: seq<TrainingItem>)
    ensures |r| <= |items|
    ensures forall x :: x in r <==> x in items && keep(x)
  {
    if items == [] then []
    else (if keep(items[0]) then [items[0]] else []) + Filter(items[1..], keep)
  }
}
