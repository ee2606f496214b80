/**
 * CHealthEntity: a health pack that falls to the ground, waits up to 15 s for a tank
 * to drive over it, and asks the scene driver for a new one when it is collected or expires.
 */
module Health {
  import opened Wrappers
  import opened Geometry
  import opened Messaging
  import opened Registry
  import opened Pickup

  class HealthEntity {
    const uid: UID
    /** What a collecting tank receives. */
    const amount: nat

    var state: Phase
    var lifeTime: real
    var position: Point

    function Vars(): PackVars
      reads this
    {
      PackVars(state, lifeTime, position)
    }

    constructor (id: UID, pos: Point, amountGiven: nat := DefaultAmount(HealthPack))
      ensures uid == id && amount == amountGiven
      ensures Vars() == NewPack(HealthPack, pos)
    {
      uid := id;
      position := pos;
      state := Dropping;
      lifeTime := 15.0;
      amount := amountGiven;
    }

    /** The pack has finished falling. */
    function OnGround(): (r: bool)
      reads this
      ensures r <==> state != Dropping
    {
      Pickup.OnGround(state)
    }

    /** Returns false when the pack is to be destroyed. */
    method Update(dt: real, tanks: seq<TankView>, unsetData: int, mq: Messenger) returns (alive: bool)
      modifies this, mq
      ensures var r := Step(HealthPack, uid, amount, old(Vars()), dt, tanks, unsetData, old(mq.boxes));
        Vars() == r.vars && mq.boxes == r.boxes && alive == r.alive
    {
      if state == Dropping {
        if position.y > GroundHeight {
          position := position.(y := position.y - 9.0 * dt);
        } else {
          position := position.(y := GroundHeight);
          state := TimeOut;
        }
      } else if state == TimeOut {
        if lifeTime > 0.0 {
          lifeTime := lifeTime - dt;
          var hit := FindFirst(tanks, InReach(position));
          if hit.Some? {
            mq.SendMessage(tanks[hit.value].uid, Collected(HealthPack, uid, amount));
            mq.SendMessage(SystemUID, Notice(HealthPack, uid, 0));
            return false;
          }
        } else {
          mq.SendMessage(SystemUID, Notice(HealthPack, uid, unsetData));
          return false;
        }
      }
      return true;
    }
  }
}
