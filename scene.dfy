/**
 * The pack-respawn part of UpdateScene and the four globals behind it. For each kind of
 * pack a timer and a "deployed" flag decide when the next pack is dropped; a respawn
 * notice from a destroyed pack resets them. The entity updates that follow in the same
 * call are not part of this model.
 */
module Scene {
  import opened Wrappers
  import opened Geometry
  import opened Messaging
  import opened Registry
  import opened Pickup

  /** The delay before a (new) pack of each kind is dropped: 10 s for health, 15 s for ammo. */
  function Delay(k: Kind): real
  {
    match k
    case HealthPack => 10.0
    case AmmoPack => 15.0
  }

  /** Height at which new packs appear. */
  const DropHeight := 25.0

  /** The timer and the deployed flag of one kind of pack. */
  datatype PackTimer = PackTimer(timer: real, deployed: bool)

  /** gHealthPackTimer, gHealthPackDeployed, gAmmoPackTimer, gAmmoPackDeployed. */
  datatype SceneVars = SceneVars(health: PackTimer, ammo: PackTimer)

  function Part(v: SceneVars, k: Kind): PackTimer
  {
    match k
    case HealthPack => v.health
    case AmmoPack => v.ammo
  }

  /** The globals at program start: nothing deployed, each timer at its delay. */
  function InitialScene(): (v: SceneVars)
    ensures forall k :: Part(v, k) == PackTimer(Delay(k), false)
    ensures v.health.timer == 10.0 && v.ammo.timer == 15.0
  {
    SceneVars(PackTimer(Delay(HealthPack), false), PackTimer(Delay(AmmoPack), false))
  }

  /** The Random draws for the drop positions of this call. */
  datatype DropDraw = DropDraw(healthX: real, healthZ: real, ammoX: real, ammoZ: real)

  /** Health packs drop at x in [-50, 0], ammo packs at x in [0, 50]; both at z in [-40, 10]. */
  predicate DrawInRange(d: DropDraw)
  {
    -50.0 <= d.healthX <= 0.0 && 0.0 <= d.ammoX <= 50.0
    && -40.0 <= d.healthZ <= 10.0 && -40.0 <= d.ammoZ <= 10.0
  }

  /** A request to the registry to create a pack: kind, template name, entity name, position. */
  datatype PackSpawn = PackSpawn(kind: Kind, templateName: string, name: string, pos: Point)

  function SpawnOf(k: Kind, d: DropDraw): PackSpawn
  {
    match k
    case HealthPack => PackSpawn(HealthPack, "HealthPack", "Health Pack 1", Point(d.healthX, DropHeight, d.healthZ))
    case AmmoPack => PackSpawn(AmmoPack, "AmmoPack", "Ammo Pack 1", Point(d.ammoX, DropHeight, d.ammoZ))
  }

  /** The reset a system message of kind `k`'s respawn type causes; other messages change nothing. */
  function OnNotice(p: PackTimer, k: Kind, m: Option<Message>): PackTimer
  {
    if m.Some? && m.value.kind == RespawnKind(k) then PackTimer(Delay(k), false) else p
  }

  datatype Gated = Gated(timer: PackTimer, release: bool)

  /** The deployment gate: count down while not deployed, release once the time is up. */
  function Gate(p: PackTimer, dt: real): Gated
  {
    if !p.deployed then
      if p.timer > 0.0 then Gated(p.(timer := p.timer - dt), false)
      else Gated(p.(deployed := true), true)
    else Gated(p, false)
  }

  datatype SceneTick = SceneTick(vars: SceneVars, boxes: Mailboxes, spawns: seq<PackSpawn>)

  /** The system message fetched by this call, if any, and the mailboxes without it. */
  function FetchSystem(mb: Mailboxes): (Option<Message>, Mailboxes)
  {
    match Fetch(mb, SystemUID)
    case None => (None, mb)
    case Some(f) => (Some(f.msg), f.rest)
  }

  /** The pack-deployment part of one UpdateScene call. */
  function SceneStep(v: SceneVars, mb: Mailboxes, dt: real, d: DropDraw): SceneTick
  {
    var (m, boxes) := FetchSystem(mb);
    var h := Gate(OnNotice(v.health, HealthPack, m), dt);
    var a := Gate(OnNotice(v.ammo, AmmoPack, m), dt);
    SceneTick(SceneVars(h.timer, a.timer), boxes,
              (if h.release then [SpawnOf(HealthPack, d)] else []) + (if a.release then [SpawnOf(AmmoPack, d)] else []))
  }

  /** How many of the spawns are of kind `k`. */
  function SpawnCount(s: seq<PackSpawn>, k: Kind): nat
  {
    if s == [] then 0 else (if s[0].kind == k then 1 else 0) + SpawnCount(s[1..], k)
  }

  /**
   * At most one system message per call: the system queue loses its oldest message if it
   * has one, and no other queue changes.
   */
  lemma FetchesAtMostOne(v: SceneVars, mb: Mailboxes, dt: real, d: DropDraw)
    ensures var r := SceneStep(v, mb, dt, d);
      && (Queue(mb, SystemUID) == [] ==> r.boxes == mb)
      && (Queue(mb, SystemUID) != [] ==> Queue(r.boxes, SystemUID) == Queue(mb, SystemUID)[1..])
      && forall u :: u != SystemUID ==> Queue(r.boxes, u) == Queue(mb, u)
  {
  }

  /**
   * The per-kind behaviour of one call. After the reset (the fetched message of kind k's
   * respawn type sets the timer to its delay and clears the flag): while not deployed and
   * time is left the timer drops by dt and no pack is made; once it is used up the flag
   * is set and exactly one pack of that kind, with its fixed name, is made; while deployed
   * nothing changes and no pack is made.
   */
  lemma KindStep(v: SceneVars, mb: Mailboxes, dt: real, d: DropDraw, k: Kind)
    ensures var r := SceneStep(v, mb, dt, d);
      var p := OnNotice(Part(v, k), k, FetchSystem(mb).0);
      && (!p.deployed && p.timer > 0.0 ==>
            Part(r.vars, k) == PackTimer(p.timer - dt, false) && SpawnCount(r.spawns, k) == 0)
      && (!p.deployed && p.timer <= 0.0 ==>
            && Part(r.vars, k) == PackTimer(p.timer, true) && SpawnCount(r.spawns, k) == 1
            && SpawnOf(k, d) in r.spawns)
      && (p.deployed ==> Part(r.vars, k) == p && SpawnCount(r.spawns, k) == 0)
  {
    var r := SceneStep(v, mb, dt, d);
    var healthSpawns: seq<PackSpawn> := if Gate(OnNotice(v.health, HealthPack, FetchSystem(mb).0), dt).release then [SpawnOf(HealthPack, d)] else [];
    var ammoSpawns: seq<PackSpawn> := if Gate(OnNotice(v.ammo, AmmoPack, FetchSystem(mb).0), dt).release then [SpawnOf(AmmoPack, d)] else [];
    SpawnCountAppend(healthSpawns, ammoSpawns, k);
  }

  lemma {:induction false} SpawnCountAppend(a: seq<PackSpawn>, b: seq<PackSpawn>, k: Kind)
    ensures SpawnCount(a + b, k) == SpawnCount(a, k) + SpawnCount(b, k)
  {
    if a == [] {
      assert a + b == b;
    } else {
      assert (a + b)[1..] == a[1..] + b;
      SpawnCountAppend(a[1..], b, k);
    }
  }

  /**
   * A respawn notice never leads to a drop in the same call: the reset timer is positive,
   * so only the countdown runs. Hence at most one pack is made per reset.
   */
  lemma NoticeDelaysDrop(v: SceneVars, mb: Mailboxes, dt: real, d: DropDraw, k: Kind)
    requires Queue(mb, SystemUID) != [] && Queue(mb, SystemUID)[0].kind == RespawnKind(k)
    ensures var r := SceneStep(v, mb, dt, d);
      Part(r.vars, k) == PackTimer(Delay(k) - dt, false) && SpawnCount(r.spawns, k) == 0
  {
    KindStep(v, mb, dt, d, k);
  }

  /** Made packs appear 25 units up, at the x/z drawn inside their kind's drop area. */
  lemma SpawnsInDropArea(v: SceneVars, mb: Mailboxes, dt: real, d: DropDraw)
    requires DrawInRange(d)
    ensures forall s :: s in SceneStep(v, mb, dt, d).spawns ==>
      && s.pos.y == 25.0 && -40.0 <= s.pos.z <= 10.0
      && (s.kind == HealthPack ==> s.name == "Health Pack 1" && -50.0 <= s.pos.x <= 0.0)
      && (s.kind == AmmoPack ==> s.name == "Ammo Pack 1" && 0.0 <= s.pos.x <= 50.0)
  {
  }

  /**
   * The respawn protocol of one kind, as a ledger over the number of live packs of that
   * kind and the number of its respawn notices waiting in the system queue: either a pack
   * is deployed and exactly one of "a live pack" or "a waiting notice" accounts for it,
   * or nothing is deployed, alive or waiting.
   */
  predicate Ledger(p: PackTimer, live: nat, pending: nat)
  {
    (p.deployed && live + pending == 1) || (!p.deployed && live == 0 && pending == 0)
  }

  function Pending(mb: Mailboxes, k: Kind): nat
  {
    CountKind(Queue(mb, SystemUID), RespawnKind(k))
  }

  lemma InitialLedger(k: Kind)
    ensures Ledger(Part(InitialScene(), k), 0, Pending(map[], k))
  {
  }

  /** The scene call keeps the ledger: live packs grow by the packs it makes. */
  lemma SceneKeepsLedger(v: SceneVars, mb: Mailboxes, dt: real, d: DropDraw, k: Kind, live: nat)
    requires Ledger(Part(v, k), live, Pending(mb, k))
    ensures var r := SceneStep(v, mb, dt, d);
      Ledger(Part(r.vars, k), live + SpawnCount(r.spawns, k), Pending(r.boxes, k))
  {
    KindStep(v, mb, dt, d, k);
    var q := Queue(mb, SystemUID);
    if q != [] {
      assert q == [q[0]] + q[1..];
      CountKindAppend([q[0]], q[1..], RespawnKind(k));
    }
  }

  /**
   * A pack's Update keeps the ledger: the pack being updated is one of the live packs, and
   * if it is destroyed its notice takes its place.
   */
  lemma PackUpdateKeepsLedger(p: PackTimer, k: Kind, uid: UID, amount: nat, v: PackVars, dt: real,
                              tanks: seq<TankView>, unsetData: int, mb: Mailboxes, live: nat)
    requires live >= 1 && Ledger(p, live, Pending(mb, k))
    ensures var r := Pickup.Step(k, uid, amount, v, dt, tanks, unsetData, mb);
      Ledger(p, if r.alive then live else live - 1, Pending(r.boxes, k))
  {
    OneNoticePerDestruction(k, uid, amount, v, dt, tanks, unsetData, mb);
  }

  /** Under the ledger there is never more than one pack of a kind, and none while not deployed. */
  lemma AtMostOnePack(p: PackTimer, live: nat, pending: nat)
    requires Ledger(p, live, pending)
    ensures live <= 1 && (!p.deployed ==> live == 0)
  {
  }

  /** The four globals of the scene, updated in place by UpdateScene. */
  class SceneDriver {
    var healthPackTimer: real
    var healthPackDeployed: bool
    var ammoPackTimer: real
    var ammoPackDeployed: bool

    function Vars(): SceneVars
      reads this
    {
      SceneVars(PackTimer(healthPackTimer, healthPackDeployed), PackTimer(ammoPackTimer, ammoPackDeployed))
    }

    constructor ()
      ensures Vars() == InitialScene()
    {
      healthPackTimer := 10.0;
      healthPackDeployed := false;
      ammoPackTimer := 15.0;
      ammoPackDeployed := false;
    }

    /** The pack deployment of UpdateScene; returns the packs to create, in creation order. */
    method UpdateScene(dt: real, d: DropDraw, mq: Messenger) returns (spawns: seq<PackSpawn>)
      modifies this, mq
      ensures var r := SceneStep(old(Vars()), old(mq.boxes), dt, d);
        Vars() == r.vars && mq.boxes == r.boxes && spawns == r.spawns
    {
      var msg := mq.FetchMessage(SystemUID);
      if msg.Some? {
        if msg.value.kind == MsgNewHealthPack {
          healthPackTimer := 10.0;
          healthPackDeployed := false;
        }
        if msg.value.kind == MsgNewAmmoPack {
          ammoPackTimer := 15.0;
          ammoPackDeployed := false;
        }
      }
      spawns := [];
      if !healthPackDeployed {
        if healthPackTimer > 0.0 {
          healthPackTimer := healthPackTimer - dt;
        } else {
          healthPackDeployed := true;
          spawns := spawns + [PackSpawn(HealthPack, "HealthPack", "Health Pack 1", Point(d.healthX, 25.0, d.healthZ))];
        }
      }
      if !ammoPackDeployed {
        if ammoPackTimer > 0.0 {
          ammoPackTimer := ammoPackTimer - dt;
        } else {
          ammoPackDeployed := true;
          spawns := spawns + [PackSpawn(AmmoPack, "AmmoPack", "Ammo Pack 1", Point(d.ammoX, 25.0, d.ammoZ))];
        }
      }
    }
  }
}
