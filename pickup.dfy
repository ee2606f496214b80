/**
 * The life cycle shared by the two pickups, health packs and ammo packs: a pack falls
 * until it reaches the ground, then waits a limited time for a tank to drive over it.
 * Being collected and timing out both destroy the pack, and both ask the scene driver
 * for a new one. The two kinds differ only in their constants and message types.
 */
module Pickup {
  import opened Wrappers
  import opened Geometry
  import opened Messaging
  import opened Registry

  /** EHealthState / EAmmoState. */
  datatype Phase = Dropping | TimeOut

  datatype Kind = HealthPack | AmmoPack

  /** OnGround: the pack has finished falling. */
  function OnGround(p: Phase): bool
  {
    p != Dropping
  }

  /** Time a new pack may wait on the ground: 15 s for health, 10 s for ammo. */
  function InitialLifeTime(k: Kind): real
  {
    match k
    case HealthPack => 15.0
    case AmmoPack => 10.0
  }

  /** Falling speed: 9 units/s for health, 14 units/s for ammo. */
  function DropRate(k: Kind): real
  {
    match k
    case HealthPack => 9.0
    case AmmoPack => 14.0
  }

  /** The default constructor argument `amount`: 50 HP or 10 shells. */
  function DefaultAmount(k: Kind): nat
  {
    match k
    case HealthPack => 50
    case AmmoPack => 10
  }

  /** The message the collecting tank receives. */
  function CollectedKind(k: Kind): MsgKind
  {
    match k
    case HealthPack => MsgHealthCollected
    case AmmoPack => MsgAmmoCollected
  }

  /** The message that tells the scene driver to schedule a new pack. */
  function RespawnKind(k: Kind): MsgKind
  {
    match k
    case HealthPack => MsgNewHealthPack
    case AmmoPack => MsgNewAmmoPack
  }

  /** Height at which a falling pack stops. */
  const GroundHeight := 0.5
  /** A tank closer than this to a pack on the ground collects it. */
  const CollectRadius := 5.0

  /** The fields that Update changes: m_State, m_LifeTime and the position. */
  datatype PackVars = PackVars(phase: Phase, lifeTime: real, pos: Point)

  /** The state after one Update, the mailboxes, and Update's result (false: destroy me). */
  datatype PackTick = PackTick(vars: PackVars, boxes: Mailboxes, alive: bool)

  /** A freshly created pack: falling, with its full lifetime. */
  function NewPack(k: Kind, pos: Point): (v: PackVars)
    ensures v.phase == Dropping && !OnGround(v.phase)
    ensures v.lifeTime == InitialLifeTime(k) && v.pos == pos
  {
    PackVars(Dropping, InitialLifeTime(k), pos)
  }

  /** The collision test of the enumeration loop: a tank strictly within 5 units. */
  function InReach(p: Point): TankView -> bool
  {
    (t: TankView) => Within(p, t.pos, CollectRadius)
  }

  /**
   * The respawn notice a pack of kind `k` sends to the system UID. The collecting path
   * clears the message first, so its payload is 0; the expiry path never assigns the
   * payload, which arrives as `unsetData`.
   */
  function Notice(k: Kind, uid: UID, data: int): Message
  {
    Message(RespawnKind(k), uid, data)
  }

  /** The collection message carrying the pack's payload. */
  function Collected(k: Kind, uid: UID, amount: nat): Message
  {
    Message(CollectedKind(k), uid, amount)
  }

  /** One Update of a pack of kind `k` with UID `uid` carrying `amount`. */
  function Step(k: Kind, uid: UID, amount: nat, v: PackVars, dt: real,
                tanks: seq<TankView>, unsetData: int, mb: Mailboxes): PackTick
  {
    match v.phase
    case Dropping =>
      if v.pos.y > GroundHeight then
        PackTick(v.(pos := v.pos.(y := v.pos.y - DropRate(k) * dt)), mb, true)
      else
        PackTick(v.(pos := v.pos.(y := GroundHeight), phase := TimeOut), mb, true)
    case TimeOut =>
      if v.lifeTime > 0.0 then
        var v' := v.(lifeTime := v.lifeTime - dt);
        match FirstMatch(tanks, InReach(v.pos))
        case None => PackTick(v', mb, true)
        case Some(i) =>
          PackTick(v', Send(Send(mb, tanks[i].uid, Collected(k, uid, amount)), SystemUID, Notice(k, uid, 0)), false)
      else
        PackTick(v, Send(mb, SystemUID, Notice(k, uid, unsetData)), false)
  }

  /**
   * A falling pack only moves down and lands: it stays Dropping exactly while it is above
   * the ground height, and nothing but its height and, on landing, its phase changes.
   */
  lemma DroppingKeepsLifeTime(k: Kind, uid: UID, amount: nat, v: PackVars, dt: real,
                              tanks: seq<TankView>, unsetData: int, mb: Mailboxes)
    requires v.phase == Dropping
    ensures var r := Step(k, uid, amount, v, dt, tanks, unsetData, mb);
      && r.alive && r.boxes == mb && r.vars.lifeTime == v.lifeTime
      && (r.vars.phase == Dropping <==> v.pos.y > GroundHeight)
      && (v.pos.y > GroundHeight ==> r.vars == v.(pos := v.pos.(y := v.pos.y - DropRate(k) * dt)))
      && (v.pos.y <= GroundHeight ==> r.vars == v.(phase := TimeOut, pos := v.pos.(y := GroundHeight)))
  {
  }

  /** The phase only moves forward, Dropping to TimeOut, so OnGround never turns false again. */
  lemma PhaseOnlyAdvances(k: Kind, uid: UID, amount: nat, v: PackVars, dt: real,
                          tanks: seq<TankView>, unsetData: int, mb: Mailboxes)
    ensures var r := Step(k, uid, amount, v, dt, tanks, unsetData, mb);
      (v.phase == TimeOut ==> r.vars.phase == TimeOut) && (OnGround(v.phase) ==> OnGround(r.vars.phase))
  {
  }

  /**
   * On the ground with time left, the lifetime drops by dt before the scan, and nothing
   * else about the pack changes. The first
   * tank in reach, in enumeration order, gets one collection message with the payload,
   * the system UID one respawn notice, and the pack is destroyed. With no tank in reach
   * the pack survives and sends nothing.
   */
  lemma TimeOutScan(k: Kind, uid: UID, amount: nat, v: PackVars, dt: real,
                    tanks: seq<TankView>, unsetData: int, mb: Mailboxes)
    requires v.phase == TimeOut && v.lifeTime > 0.0
    ensures var r := Step(k, uid, amount, v, dt, tanks, unsetData, mb);
      && r.vars == v.(lifeTime := v.lifeTime - dt)
      && match FirstMatch(tanks, InReach(v.pos))
         case None => r.alive && r.boxes == mb
         case Some(i) =>
           && !r.alive
           && Within(v.pos, tanks[i].pos, CollectRadius)
           && (forall j :: 0 <= j < i ==> !Within(v.pos, tanks[j].pos, CollectRadius))
           && r.boxes == Send(Send(mb, tanks[i].uid, Collected(k, uid, amount)), SystemUID, Notice(k, uid, 0))
  {
  }

  /**
   * With its lifetime used up, a pack on the ground is destroyed unchanged and only sends
   * the notice.
   */
  lemma TimeOutExpires(k: Kind, uid: UID, amount: nat, v: PackVars, dt: real,
                       tanks: seq<TankView>, unsetData: int, mb: Mailboxes)
    requires v.phase == TimeOut && v.lifeTime <= 0.0
    ensures var r := Step(k, uid, amount, v, dt, tanks, unsetData, mb);
      !r.alive && r.vars == v && r.boxes == Send(mb, SystemUID, Notice(k, uid, unsetData))
  {
  }

  /**
   * Respawn is requested exactly once per destruction: an Update that returns false adds
   * exactly one respawn notice to the system queue, one that returns true sends nothing.
   */
  lemma {:induction false} OneNoticePerDestruction(k: Kind, uid: UID, amount: nat, v: PackVars, dt: real,
                                                   tanks: seq<TankView>, unsetData: int, mb: Mailboxes)
    ensures var r := Step(k, uid, amount, v, dt, tanks, unsetData, mb);
      && (r.alive ==> r.boxes == mb)
      && CountKind(Queue(r.boxes, SystemUID), RespawnKind(k))
         == CountKind(Queue(mb, SystemUID), RespawnKind(k)) + (if r.alive then 0 else 1)
  {
    var r := Step(k, uid, amount, v, dt, tanks, unsetData, mb);
    var q := Queue(mb, SystemUID);
    if !r.alive {
      if v.lifeTime > 0.0 {
        var n := Notice(k, uid, 0);
        assert CountKind([n], RespawnKind(k)) == 1;
        var i := FirstMatch(tanks, InReach(v.pos)).value;
        var c := Collected(k, uid, amount);
        var mb1 := Send(mb, tanks[i].uid, c);
        assert CountKind([c], RespawnKind(k)) == 0;
        if tanks[i].uid == SystemUID {
          CountKindAppend(q, [c], RespawnKind(k));
          CountKindAppend(q + [c], [n], RespawnKind(k));
        } else {
          CountKindAppend(q, [n], RespawnKind(k));
        }
      } else {
        var n := Notice(k, uid, unsetData);
        assert CountKind([n], RespawnKind(k)) == 1;
        CountKindAppend(q, [n], RespawnKind(k));
      }
    }
  }
}
