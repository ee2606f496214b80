/**
 * What the entity registry tells the behaviour code. Its implementation (the single
 * enumeration cursor, deferred destruction) is not part of this model: an enumeration of
 * the tank category is given as the sequence of tanks it yields, in registry order, and
 * lookup by UID as the set of UIDs that still name a live entity.
 */
module Registry {
  import opened Wrappers
  import opened Geometry
  import opened Messaging

  /** One tank as an enumeration yields it: UID, position and its mesh's bounding radius. */
  datatype TankView = TankView(uid: UID, pos: Point, radius: real)

  /**
   * The enumeration loop that stops at the first tank satisfying `hits`
   * (BeginEnumEntities / EnumEntity until a hit or the end).
   */
  function FirstMatch(ts: seq<TankView>, hits: TankView -> bool): (r: Option<nat>)
    ensures r.Some? ==> r.value < |ts| && hits(ts[r.value])
    ensures r.Some? ==> forall j :: 0 <= j < r.value ==> !hits(ts[j])
    ensures r.None? <==> forall j :: 0 <= j < |ts| ==> !hits(ts[j])
    decreases |ts|
  {
    if ts == [] then None
    else if hits(ts[0]) then Some(0)
    else
      match FirstMatch(ts[1..], hits)
      case None => None
      case Some(k) => Some(k + 1)
  }

  /** The enumeration loop itself: examine the tanks in order, stop at the first hit. */
  method FindFirst(ts: seq<TankView>, hits: TankView -> bool) returns (r: Option<nat>)
    ensures r == FirstMatch(ts, hits)
  {
    var i := 0;
    while i < |ts|
      invariant 0 <= i <= |ts|
      invariant forall j :: 0 <= j < i ==> !hits(ts[j])
    {
      if hits(ts[i]) {
        return Some(i);
      }
      i := i + 1;
    }
    return None;
  }
}
