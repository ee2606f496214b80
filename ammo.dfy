/**
 * CAmmoEntity: an ammo pack that falls to the ground, waits up to 10 s for a tank
 * to drive over it, and asks the scene driver for a new one when it is collected or expires.
 */
module Ammo {
  import opened Wrappers
  import opened Geometry
  import opened Messaging
  import opened Registry
  import opened Pickup

  class AmmoEntity {
    const uid: UID
    /** What a collecting tank receives. */
    const amount: nat

    var state: Phase
    var lifeTime: real
    var position: Point

    function Vars(): PackVars
      reads this
    {
      PackVars(state, lifeTime, position)
    }

    constructor (id: UID, pos: Point, amountGiven: nat := DefaultAmount(AmmoPack))
      ensures uid == id && amount == amountGiven
      ensures Vars() == NewPack(AmmoPack, pos)
    {
      uid := id;
      position := pos;
      state := Dropping;
      lifeTime := 10.0;
      amount := amountGiven;
    }

    /** The pack has finished falling. */
    function OnGround(): (r: bool)
      reads this
      ensures r <==> state != Dropping
    {
      Pickup.OnGround(state)
    }

    /** Returns false when the pack is to be destroyed. */
    method Update(dt: real, tanks: seq<TankView>, unsetData: int, mq: Messenger) returns (alive: bool)
      modifies this, mq
      ensures var r := Step(AmmoPack, uid, amount, old(Vars()), dt, tanks, unsetData, old(mq.boxes));
        Vars() == r.vars && mq.boxes == r.boxes && alive == r.alive
    {
      if state == Dropping {
        if position.y > GroundHeight {
          position := position.(y := position.y - 14.0 * dt);
        } else {
          position := position.(y := GroundHeight);
          state := TimeOut;
        }
      } else if state == TimeOut {
        if lifeTime > 0.0 {
          lifeTime := lifeTime - dt;
          var hit := FindFirst(tanks, InReach(position));
          if hit.Some? {
            mq.SendMessage(tanks[hit.value].uid, Collected(AmmoPack, uid, amount));
            mq.SendMessage(SystemUID, Notice(AmmoPack, uid, 0));
            return false;
          }
        } else {
          mq.SendMessage(SystemUID, Notice(AmmoPack, uid, unsetData));
          return false;
        }
      }
      return true;
    }
  }
}
