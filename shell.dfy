/**
 * CShellEntity: a shell flies along its facing direction for a limited time and, on the
 * first tank it touches, sends that tank one Hit and asks to be destroyed.
 */
module Shells {
  import opened Wrappers
  import opened Geometry
  import opened Messaging
  import opened Registry

  /** The lifetime and speed every new shell starts with. */
  const InitialLifeTime := 1.5
  const InitialSpeed := 150.0

  /** The fields fixed at creation: UIDs, the mesh radius and the (unit) facing direction. */
  datatype ShellConfig = ShellConfig(uid: UID, tankUID: UID, radius: real, forward: Point)

  /** The fields Update changes. */
  datatype ShellVars = ShellVars(lifeTime: real, speed: real, pos: Point)

  datatype ShellTick = ShellTick(vars: ShellVars, boxes: Mailboxes, alive: bool)

  function NewShell(pos: Point): (v: ShellVars)
    ensures v.lifeTime == 1.5 && v.speed == 150.0 && v.pos == pos
  {
    ShellVars(InitialLifeTime, InitialSpeed, pos)
  }

  /** The collision test: closer than the sum of the two bounding radii. */
  function Collides(pos: Point, radius: real): TankView -> bool
  {
    (t: TankView) => Within(pos, t.pos, radius + t.radius)
  }

  /**
   * The Hit a shell sends: from the shell's own UID. The payload is never assigned, so
   * whatever an unassigned field holds arrives as `unsetData`.
   */
  function HitMessage(c: ShellConfig, unsetData: int): Message
  {
    Message(MsgHit, c.uid, unsetData)
  }

  /** Counting down the lifetime and moving speed * dt along the facing direction. */
  function Flight(c: ShellConfig, v: ShellVars, dt: real): ShellVars
  {
    v.(lifeTime := v.lifeTime - dt, pos := Advance(v.pos, c.forward, v.speed * dt))
  }

  /** One Update of a shell over the tanks as the enumeration yields them. */
  function Step(c: ShellConfig, v: ShellVars, dt: real, tanks: seq<TankView>, unsetData: int,
                mb: Mailboxes): ShellTick
  {
    if v.lifeTime > 0.0 then
      var moved := Flight(c, v, dt);
      match FirstMatch(tanks, Collides(moved.pos, c.radius))
      case None => ShellTick(moved, mb, true)
      case Some(k) => ShellTick(moved, Send(mb, tanks[k].uid, HitMessage(c, unsetData)), false)
    else ShellTick(v, mb, false)
  }

  /** A shell whose time is up is destroyed, sends nothing and does not move. */
  lemma ExpiredShell(c: ShellConfig, v: ShellVars, dt: real, tanks: seq<TankView>, unsetData: int, mb: Mailboxes)
    requires v.lifeTime <= 0.0
    ensures Step(c, v, dt, tanks, unsetData, mb) == ShellTick(v, mb, false)
  {
  }

  /**
   * A live shell first loses dt of lifetime and moves speed * dt along its facing; the
   * collision scan then uses the new position.
   */
  lemma LiveShellAdvances(c: ShellConfig, v: ShellVars, dt: real, tanks: seq<TankView>, unsetData: int, mb: Mailboxes)
    requires v.lifeTime > 0.0
    ensures var r := Step(c, v, dt, tanks, unsetData, mb);
      r.vars.lifeTime == v.lifeTime - dt && r.vars.speed == v.speed
      && r.vars.pos == Advance(v.pos, c.forward, v.speed * dt)
  {
  }

  /**
   * Exactly one Hit per hit: a shell that asks to be destroyed while it still had lifetime
   * has added exactly one message, a Hit from its own UID, to the queue of the first tank
   * in enumeration order that it touches, and to no other queue. A shell that survives
   * touches no tank and sends nothing.
   */
  lemma OneHitOnFirstTank(c: ShellConfig, v: ShellVars, dt: real, tanks: seq<TankView>, unsetData: int, mb: Mailboxes)
    requires v.lifeTime > 0.0
    ensures var r := Step(c, v, dt, tanks, unsetData, mb);
      var pos := Flight(c, v, dt).pos;
      match FirstMatch(tanks, Collides(pos, c.radius))
      case None =>
        && r.alive && r.boxes == mb
        && forall j :: 0 <= j < |tanks| ==> !Collides(pos, c.radius)(tanks[j])
      case Some(k) =>
        && !r.alive
        && Collides(pos, c.radius)(tanks[k])
        && (forall j :: 0 <= j < k ==> !Collides(pos, c.radius)(tanks[j]))
        && Queue(r.boxes, tanks[k].uid) == Queue(mb, tanks[k].uid) + [Message(MsgHit, c.uid, unsetData)]
        && (forall u :: u != tanks[k].uid ==> Queue(r.boxes, u) == Queue(mb, u))
  {
  }

  /**
   * The firing tank is not excluded from the scan: when it is the first tank the shell
   * touches, it is the one that receives the Hit.
   */
  lemma OwnerCanBeHit(c: ShellConfig, v: ShellVars, dt: real, owner: TankView, others: seq<TankView>,
                      unsetData: int, mb: Mailboxes)
    requires v.lifeTime > 0.0 && owner.uid == c.tankUID
    requires Within(Advance(v.pos, c.forward, v.speed * dt), owner.pos, c.radius + owner.radius)
    ensures var r := Step(c, v, dt, [owner] + others, unsetData, mb);
      !r.alive && r.boxes == Send(mb, c.tankUID, Message(MsgHit, c.uid, unsetData))
  {
  }

  class ShellEntity {
    const uid: UID
    /** The tank that fired this shell (kept, but not used as the Hit's sender). */
    const tankUID: UID
    const radius: real
    const forward: Point

    var lifeTime: real
    var speed: real
    var position: Point

    function Config(): ShellConfig
    {
      ShellConfig(uid, tankUID, radius, forward)
    }

    function Vars(): ShellVars
      reads this
    {
      ShellVars(lifeTime, speed, position)
    }

    constructor (id: UID, firedBy: UID, pos: Point, facing: Point, meshRadius: real)
      ensures Config() == ShellConfig(id, firedBy, meshRadius, facing)
      ensures Vars() == NewShell(pos)
    {
      uid := id;
      tankUID := firedBy;
      radius := meshRadius;
      forward := facing;
      lifeTime := InitialLifeTime;
      speed := InitialSpeed;
      position := pos;
    }

    method Fly(dt: real)
      modifies this
      ensures Vars() == Flight(Config(), old(Vars()), dt)
    {
      lifeTime := lifeTime - dt;
      position := Advance(position, forward, speed * dt);
    }

    /** Returns false when the shell is to be destroyed. */
    method Update(dt: real, tanks: seq<TankView>, unsetData: int, mq: Messenger) returns (alive: bool)
      modifies this, mq
      ensures var r := Step(Config(), old(Vars()), dt, tanks, unsetData, old(mq.boxes));
        Vars() == r.vars && mq.boxes == r.boxes && alive == r.alive
    {
      if lifeTime > 0.0 {
        Fly(dt);
        var hit := FindFirst(tanks, Collides(position, radius));
        if hit.Some? {
          mq.SendMessage(tanks[hit.value].uid, Message(MsgHit, uid, unsetData));
          return false;
        }
      } else {
        return false;
      }
      return true;
    }
  }
}
