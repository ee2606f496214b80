/**
 * CTankEntity: a tank whose Update changes its own fields in place, drains its mailbox
 * through the messenger and steps its state machine. Every method is proved to do what
 * the functions of TankSpec say, so the lemmas of TankSpec hold of this class.
 */
module Tanks {
  import opened Wrappers
  import opened Geometry
  import opened Messaging
  import opened Teams
  import opened TankSpec
  import Pickup

  class TankEntity {
    const uid: UID
    const team: int
    const template: TankTemplate
    const patrolList: seq<Point>

    var state: EState
    var stateText: string
    var hp: int
    var ammo: int
    var speed: real
    var currentWP: int
    var bulletLifeTime: real
    var targetEnemy: UID
    var evadePoint: Point
    var position: Point
    var numShellsFired: nat
    var animationTime: real

    /** The fields fixed at construction. */
    function Config(): TankConfig
    {
      TankConfig(uid, team, template, patrolList)
    }

    /** The fields Update changes, as one value. */
    function Vars(): TankVars
      reads this
    {
      TankVars(state, stateText, hp, ammo, speed, currentWP, bulletLifeTime, targetEnemy,
               evadePoint, position, numShellsFired, animationTime)
    }

    /** The waypoint index names a waypoint. */
    predicate Valid()
      reads this
    {
      0 <= currentWP < |patrolList|
    }

    constructor (tankTemplate: TankTemplate, id: UID, teamNumber: int, patrol: seq<Point>, pos: Point)
      requires tankTemplate.Valid()
      ensures Config() == TankConfig(id, teamNumber, tankTemplate, patrol)
      ensures Vars() == InitialVars(Config(), pos)
    {
      uid := id;
      team := teamNumber;
      template := tankTemplate;
      patrolList := patrol;
      speed := 0.0;
      hp := tankTemplate.GetMaxHP();
      state := Inactive;
      numShellsFired := 0;
      currentWP := 0;
      evadePoint := Origin;
      bulletLifeTime := FireCountdown;
      stateText := "Inactive";
      targetEnemy := 0;
      position := pos;
      animationTime := InitialAnimationTime;
      ammo := InitialAmmo;
    }

    function IsAlive(): (r: bool)
      reads this
      ensures r <==> TankSpec.IsAlive(Vars())
    {
      state != Dead
    }

    function GetSpeed(): real reads this { speed }
    function GetHPs(): int reads this { hp }
    function GetTankStateText(): string reads this { stateText }
    function GetNumShellsFired(): nat reads this { numShellsFired }
    function GetNumShellsLeft(): int reads this { ammo }

    /**
     * One Update: sinking when dead, otherwise the drain and one state step. `alive` false
     * asks the caller to destroy the tank; `shell` is the shell the tank fired, if any.
     */
    method Update(dt: real, rosters: Rosters, senses: Senses, draw: EvadeDraw, mq: Messenger)
      returns (alive: bool, shell: Option<ShellOrder>)
      requires Valid()
      modifies this, mq
      ensures Valid()
      ensures var u := TankSpec.Update(Config(), rosters, old(Vars()), old(mq.boxes), dt, senses, draw);
        Vars() == u.vars && mq.boxes == u.boxes && shell == u.shell && alive == u.alive
    {
      if !IsAlive() {
        if animationTime > 0.0 {
          animationTime := animationTime - dt;
          position := position.(y := position.y - SinkingSpeed * dt);
        } else {
          return false, None;
        }
        return true, None;
      }
      DrainMessages(rosters, draw, mq);
      shell := StepState(dt, rosters, senses, draw);
      alive := true;
    }

    /** The while loop over FetchMessage. */
    method DrainMessages(rosters: Rosters, draw: EvadeDraw, mq: Messenger)
      requires Valid()
      modifies this, mq
      ensures Valid()
      ensures var d := Drain(Config(), rosters, old(Vars()), draw, old(mq.boxes));
        Vars() == d.vars && mq.boxes == d.boxes
    {
      while true
        invariant Valid()
        invariant Drain(Config(), rosters, Vars(), draw, mq.boxes)
               == Drain(Config(), rosters, old(Vars()), draw, old(mq.boxes))
        decreases Weight(Queue(mq.boxes, uid), SelfCount(Config(), rosters))
      {
        ghost var before := mq.boxes;
        var msg := mq.FetchMessage(uid);
        if msg.None? {
          break;
        }
        WeightOfFetch(before, uid, SelfCount(Config(), rosters));
        HandleShrinks(Config(), rosters, Vars(), msg.value, draw, mq.boxes);
        HandleMessage(msg.value, rosters, draw, mq);
      }
    }

    /** The switch over the message type. */
    method HandleMessage(m: Message, rosters: Rosters, draw: EvadeDraw, mq: Messenger)
      modifies this, mq
      ensures var t := Handle(Config(), rosters, old(Vars()), m, draw, old(mq.boxes));
        Vars() == t.vars && mq.boxes == t.boxes
    {
      match m.kind {
        case MsgStart =>
          state := Patrol;
          stateText := "Patrol";
        case MsgStop =>
          state := Inactive;
          stateText := "Inactive";
        case MsgHit =>
          HandleHit(m, rosters, mq);
        case MsgHelpMe =>
          if state != Evade && ammo > 0 {
            targetEnemy := m.data;
            state := Aim;
            stateText := "Aim";
          }
        case MsgEvade =>
          evadePoint := evadePoint.(x := position.x + draw.dx, z := position.z + draw.dz);
          state := Evade;
          stateText := "Evade";
        case MsgHealthCollected =>
          hp := hp + m.data;
        case MsgAmmoCollected =>
          ammo := ammo + m.data;
        case _ =>
      }
    }

    /** A Hit: lose 20 HP unless evading, then die or call the team for help. */
    method HandleHit(m: Message, rosters: Rosters, mq: Messenger)
      requires m.kind == MsgHit
      modifies this, mq
      ensures var t := Handle(Config(), rosters, old(Vars()), m, EvadeDraw(0.0, 0.0), old(mq.boxes));
        Vars() == t.vars && mq.boxes == t.boxes
    {
      if state != Evade {
        hp := hp - HitDamage;
      }
      if hp <= 0 {
        state := Dead;
        stateText := "Dead";
      } else {
        CallForHelp(m.data, rosters, mq);
      }
    }

    /** The for loop sending HelpMe to every UID of the tank's own team list. */
    method CallForHelp(enemyUID: UID, rosters: Rosters, mq: Messenger)
      modifies mq
      ensures mq.boxes == Broadcast(old(mq.boxes), GetTeamTankUID(rosters, team), Message(MsgHelpMe, uid, enemyUID))
    {
      var teamUIDs := GetTeamTankUID(rosters, team);
      for i := 0 to |teamUIDs|
        invariant Broadcast(mq.boxes, teamUIDs[i..], Message(MsgHelpMe, uid, enemyUID))
               == Broadcast(old(mq.boxes), teamUIDs, Message(MsgHelpMe, uid, enemyUID))
      {
        assert teamUIDs[i..][1..] == teamUIDs[i + 1..];
        mq.SendMessage(teamUIDs[i], Message(MsgHelpMe, uid, enemyUID));
      }
    }

    /** The state step after the drain; it only changes this tank. */
    method StepState(dt: real, rosters: Rosters, senses: Senses, draw: EvadeDraw)
      returns (shell: Option<ShellOrder>)
      requires Valid()
      modifies this
      ensures Valid()
      ensures var st := Step(Config(), rosters, old(Vars()), senses, dt, draw);
        Vars() == st.vars && shell == st.shell
    {
      shell := None;
      if state == Patrol {
        PatrolBehaviour(rosters, senses);
      } else if state == Aim {
        if bulletLifeTime > 0.0 {
          bulletLifeTime := bulletLifeTime - dt;
          if targetEnemy !in senses.live {
            state := Patrol;
            return;
          }
        } else {
          ammo := ammo - 1;
          numShellsFired := numShellsFired + 1;
          shell := Some(ShellOrder(uid));
          bulletLifeTime := FireCountdown;
          evadePoint := evadePoint.(x := position.x + draw.dx, z := position.z + draw.dz);
          state := Evade;
        }
      } else if state == Evade {
        if Within(position, evadePoint, EvadeArrivalRadius) {
          state := Patrol;
        } else {
          Accelerate(template.GetMaxSpeed());
          if senses.facingEvade {
            evadePoint := position;
          }
        }
      }
    }

    /** The speed rule of every moving branch. */
    method Accelerate(cap: real)
      modifies this
      ensures Vars() == old(Vars()).(speed := TankSpec.Accelerate(old(speed), template.acceleration, cap))
    {
      if speed < cap {
        speed := speed + template.GetAcceleration();
      } else {
        speed := cap;
      }
    }

    method PatrolBehaviour(rosters: Rosters, senses: Senses)
      requires Valid()
      modifies this
      ensures Valid()
      ensures Vars() == PatrolStep(Config(), rosters, old(Vars()), senses)
    {
      if hp <= LowHealth {
        var seeking := LookForPickup(senses.healthPack, senses.facingHealth);
        if seeking {
          return;
        }
      }
      if ammo <= LowAmmo {
        var seeking := LookForPickup(senses.ammoPack, senses.facingAmmo);
        if seeking {
          return;
        }
      }
      if Within(position, patrolList[currentWP], WaypointRadius) {
        currentWP := currentWP + 1;
        if currentWP == |patrolList| {
          currentWP := 0;
        }
        speed := 0.0;
      } else {
        if senses.facingWaypoint {
          Accelerate(template.GetMaxSpeed());
        }
        if ammo > 0 {
          ScanForEnemies(rosters, senses);
        }
      }
    }

    /**
     * LookForHealth / LookForAmmo: true (the tank heads for the pickup) exactly when the
     * pickup exists and has landed; only then the speed may change.
     */
    method LookForPickup(pack: Option<Pickup.Phase>, facing: bool) returns (seeking: bool)
      modifies this
      ensures seeking == PickupReady(pack)
      ensures Vars() == if seeking then SeekPickup(Config(), old(Vars()), facing) else old(Vars())
    {
      seeking := false;
      if pack.Some? && Pickup.OnGround(pack.value) {
        if facing {
          Accelerate(template.GetMaxSpeed() * PickupSpeedFactor);
        }
        seeking := true;
      }
    }

    /** The for loop over the enemy list. */
    method ScanForEnemies(rosters: Rosters, senses: Senses)
      modifies this
      ensures Vars() == ScanEnemies(old(Vars()), GetEnemyTankUID(rosters, team), senses)
    {
      var enemies := GetEnemyTankUID(rosters, team);
      for i := 0 to |enemies|
        invariant ScanEnemies(Vars(), enemies[i..], senses) == ScanEnemies(old(Vars()), enemies, senses)
      {
        assert enemies[i..][1..] == enemies[i + 1..];
        var enemyUID := enemies[i];
        if enemyUID in senses.live && enemyUID in senses.turretOnEnemy {
          state := Aim;
          speed := 0.0;
          targetEnemy := enemyUID;
        }
      }
    }
  }
}
