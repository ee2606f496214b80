# Tank battle: the discrete behaviour, modelled and proved in Dafny

This project models the message- and timer-driven core of a small tank-battle simulation.
Only the discrete parts are modelled: state machines, counters and messages. Rendering and
motion are not modelled. The core is made of four kinds of entity:

- **Tanks** (`CTankEntity::Update`). Each update first drains the tank's mailbox: Start,
  Stop, Hit, HelpMe, Evade, HealthCollected and AmmoCollected. It then runs one step of the
  state machine (Inactive, Patrol, Aim, Evade), or sinks a dead tank.
- **Shells** (`CShellEntity::Update`). A shell flies for 1.5 s. The first tank it touches
  gets a Hit, and the shell is destroyed.
- **Health and ammo packs** (`CHealthEntity`, `CAmmoEntity`). A pack falls, lands, and waits
  on the ground for a tank. When it is collected or expires, it notifies the scene driver.
- **The scene driver** (`UpdateScene`). Four globals gate when a new pack of each kind is
  dropped. It also provides the team lookups `GetTeamTankUID` and `GetEnemyTankUID`.

Files and modules:

| file | module | contents |
|---|---|---|
| `wrappers.dfy` | `Wrappers` | `Option` |
| `geometry.dfy` | `Geometry` | points; `Within` is the "distance below r" test, as squared distances over exact reals |
| `messaging.dfy` | `Messaging` | messages; per-UID first-in-first-out mailboxes; the `Messenger` class |
| `registry.dfy` | `Registry` | what an enumeration of tanks yields; the first-hit scan (`FirstMatch`) and its loop (`FindFirst`) |
| `teams.dfy` | `Teams` | the two rosters and the two lookups |
| `tank_spec.dfy` | `TankSpec` | the tank's update as functions, and the lemmas about it |
| `tank_entity.dfy` | `Tanks` | class `TankEntity`, whose methods are proved to follow `TankSpec` |
| `shell.dfy` | `Shells` | the shell's update as a function, its lemmas, and class `ShellEntity` |
| `pickup.dfy` | `Pickup` | the life cycle both pack kinds share, and its lemmas |
| `health.dfy`, `ammo.dfy` | `Health`, `Ammo` | classes `HealthEntity` and `AmmoEntity`, proved to follow `Pickup.Step` |
| `scene.dfy` | `Scene` | `UpdateScene`'s pack deployment, the respawn ledger, and class `SceneDriver` |

Each class keeps the source's fields. Each `Update` changes them in place, through loops
shaped like the source's. Its postcondition equates the new fields, the mailboxes, and its
results with one specification function applied to the old state. The properties are
lemmas about those functions.

The world outside an entity arrives as inputs:

- `Senses`: which UIDs the registry still resolves; the phase of "Health Pack 1" and
  "Ammo Pack 1"; and the facing and turret-cone outcomes of the vector maths.
- `seq<TankView>`: the tanks an enumeration yields, in order.
- `EvadeDraw` and `DropDraw`: the values `Random` returned.
- `unsetData`: whatever an unassigned message payload holds.

Behaviour that is modelled as the code does it, where a reader might expect otherwise:

- A shell's Hit is sent from the shell's own UID, not the UID of the tank that fired it. Its
  payload is never assigned. The HelpMe calls that the hit tank sends carry that payload as
  the "enemy" UID.
- A tank is on its own team list, so it sends a HelpMe to itself. It fetches that HelpMe in
  the same drain (`TankSpec.HitRalliesTeam`). This is why the drain's termination measure
  weighs a Hit as one more than the number of times the tank occurs in its team list.
- Dead is not final inside one drain. Four messages that follow a lethal Hit in the same
  drain leave the tank alive with HP at or below zero: Start, Stop, Evade, and a HelpMe
  while the tank still has ammo, which sets Aim (`TankSpec.LethalHitThenStart`,
  `TankSpec.UnconditionalMessages`, `TankSpec.HelpMeHandling`).
- A tank below the speed cap adds its whole acceleration, so one step can take the speed
  past the cap; at or above the cap it is set to the cap. This holds for the maximum speed
  and for the 1.5 times maximum used when chasing a pickup.
- Firing does not check the ammo count. `TankSpec.UpdateKeepsAmmoInvariant` shows that ammo
  still never goes negative, as long as pickups only grant non-negative amounts.
- In the facing branch of Evade, the evade point is overwritten with the tank's position.
  The next Evade step therefore returns to Patrol (`TankSpec.EvadeArrival`).
- The enemy scan has no `break`, so the last spotted enemy becomes the target. The scan runs
  only when the tank is not within 10 of its waypoint, and only when it has ammo.
- A respawn notice from an expiring pack has an unassigned payload. The notice sent on
  collection has payload 0.
- `GetMaxHP` returns the unsigned template value as a signed 32-bit one. Values from 2^31 up
  wrap to negative numbers (`TankSpec.ToInt32`).

## Model

| member | source | states |
|---|---|---|
| Messaging.Send | Source/Scene/TankEntity.cpp:176 | sending appends the message to the recipient's queue and leaves every other queue unchanged |
| Messaging.Fetch | Source/Scene/TankEntity.cpp:128 | fetching yields nothing exactly when the queue is empty; otherwise it yields the oldest message and removes only that one |
| Messaging.Broadcast | Source/Scene/TankEntity.cpp:166-177 | sending to every UID of a list gives each queue one copy for each time its UID occurs in the list |
| Messaging.SendThenFetchInOrder | Source/Scene/TankEntity.cpp:128 | messages sent to an empty queue are fetched back in the order they were sent |
| Messaging.Messenger.SendMessage | Source/Scene/TankEntity.cpp:176 | the messenger's mailboxes become `Send` of the old ones |
| Messaging.Messenger.FetchMessage | Source/TankAssignment.cpp:559 | returns the oldest message and removes it; with an empty queue, returns none and changes nothing |
| Registry.FirstMatch | Source/Scene/ShellEntity.cpp:73-102 | the index of the first tank in enumeration order that passes the test; none exactly when no tank passes |
| Registry.FindFirst | Source/Scene/HealthEntity.cpp:61-92 | the enumeration loop that stops at the first hit returns exactly `FirstMatch` |
| Teams.GetTeamTankUID | Source/TankAssignment.cpp:351-354 | team 0 gets TeamOne; any other number gets TeamTwo |
| Teams.GetEnemyTankUID | Source/TankAssignment.cpp:357-360 | team 0 gets TeamTwo; any other number gets TeamOne |
| Teams.EnemiesAreTheOtherTeam | Source/TankAssignment.cpp:351-360 | for teams 0 and 1, a team's enemies are the other team, and the two lookups together give both rosters |
| TankSpec.ToInt32 | Source/Scene/TankEntity.h:80-88 | TUInt32 read as TInt32: the result lies in the signed range, is congruent to the input mod 2^32, and equals the input exactly when the input is below 2^31 |
| TankSpec.TemplateGetters | Source/Scene/TankEntity.h:42-88 | each template getter returns the value its constructor stored; HP and damage below 2^31 are returned as stored, and from 2^31 up they wrap to the negative value 2^32 less |
| TankSpec.NewTank | Source/Scene/TankEntity.cpp:58-98 | a new tank is Inactive (state text included) and alive, with HP as the signed getter reads the template maximum (the stored value below 2^31, wrapped negative from 2^31 up), 10 shells, a 2 s countdown, waypoint 0, speed 0, target 0, evade point at the origin, its starting position and 3 s of sinking time |
| Tanks.TankEntity.constructor | Source/Scene/TankEntity.h:249-253 | the constructed fields are `InitialVars`, which includes the member initialisers for ammo and animation time |
| Tanks.TankEntity.IsAlive | Source/Scene/TankEntity.h:180-183 | true exactly when the state is not Dead |
| TankSpec.DeadTankOnlySinks | Source/Scene/TankEntity.cpp:106-123 | a dead tank fetches nothing and fires nothing; while its time lasts it counts down by dt, sinks by 1.0*dt and stays; after that, Update returns false and changes nothing |
| TankSpec.LiveTankSurvives | Source/Scene/TankEntity.cpp:104-123 | Update returns false only for a dead tank whose sinking time is used up |
| TankSpec.Drain | Source/Scene/TankEntity.cpp:128-222 | the drain ends with the tank's queue empty; it only appends to other queues; it leaves the waypoint and position unchanged |
| TankSpec.HitHandling | Source/Scene/TankEntity.cpp:146-181 | a Hit costs exactly 20 HP unless evading; at HP of 0 or below the tank is Dead, with only HP, state and state text changed, and sends nothing; otherwise every UID of its team list, itself included, gets one HelpMe per occurrence carrying the Hit's payload, and nothing else changes |
| TankSpec.HelpMeHandling | Source/Scene/TankEntity.cpp:183-192 | HelpMe sets Aim, its state text and the target exactly when not evading and ammo is positive, changing nothing else; otherwise nothing changes |
| TankSpec.UnconditionalMessages | Source/Scene/TankEntity.cpp:133-217 | Start, Stop and Evade act in every state and change only the state, its text and, for Evade, the evade point's x and z, which are drawn within 40 of the tank; pickup messages add their payload uncapped; only Hit sends messages |
| TankSpec.DrainHpLoss | Source/Scene/TankEntity.cpp:146-157 | given non-negative health payloads, a drain lowers HP by at most 20 times the number of Hits queued |
| TankSpec.HelpMeWithoutAmmo | Source/Scene/TankEntity.cpp:186 | a tank without ammo ignores a call for help |
| TankSpec.EvadeIgnoresHit | Source/Scene/TankEntity.cpp:146-192 | an evading tank that is once on its own team list loses no HP to a Hit, ignores the HelpMe it sends itself and ends the drain unchanged, while each other team mate gets the HelpMe |
| TankSpec.HitRalliesTeam | Source/Scene/TankEntity.cpp:146-192 | a patrolling tank with shells that survives a Hit fetches its own HelpMe in the same drain and aims at the Hit's payload; each team mate's queue gets the HelpMes |
| TankSpec.LethalHitThenStart | Source/Scene/TankEntity.cpp:133-160 | a lethal Hit followed by Start leaves the tank alive and patrolling with HP at or below zero |
| TankSpec.NextWaypoint | Source/Scene/TankEntity.cpp:265-270 | the next index stays in [0, n) and equals (wp + 1) mod n |
| TankSpec.WaypointAdvance | Source/Scene/TankEntity.cpp:263-275 | within 10 of the waypoint, the index moves on and wraps, speed drops to 0, and no scan happens; the index always stays within the list |
| TankSpec.PickupPreemptsPatrol | Source/Scene/TankEntity.cpp:240-251 | a tank at or below 50 HP or 3 shells, whose pickup has landed (health checked first), changes only its speed: when already facing the chosen pickup it accelerates while below 1.5 times its maximum (possibly past it) and is otherwise set to that value; while still turning toward it the speed is unchanged |
| TankSpec.NoScanWithoutAmmo | Source/Scene/TankEntity.cpp:328 | a patrolling tank without ammo stays in Patrol during its step |
| TankSpec.ScanEnemies | Source/Scene/TankEntity.cpp:328-367 | the scan either leaves the tank unchanged or only sets Aim, speed 0 and a target |
| TankSpec.LastSpotted | Source/Scene/TankEntity.cpp:333-365 | the last enemy in list order that exists and lies in the turret cone; none exactly when there is no such enemy |
| TankSpec.ScanAimsAtLastSpotted | Source/Scene/TankEntity.cpp:333-367 | the scan aims at the last spotted enemy and stops the tank; with none spotted it changes nothing |
| TankSpec.AimCountdownAndFire | Source/Scene/TankEntity.cpp:383-470 | while the countdown is positive it drops by dt, with no shell, and a missing target returns the tank to Patrol; at or below zero the tank fires exactly one shell of its own, with one shell less, one more fired, the countdown at 2 and Evade toward the drawn point within 40 at the old evade height; in both branches no other field changes |
| TankSpec.ShellOnlyWhenFiring | Source/Scene/TankEntity.cpp:436-470 | a step creates a shell exactly when the tank is aiming with its countdown used up |
| TankSpec.EvadeArrival | Source/Scene/TankEntity.cpp:489-541 | within 20 of the evade point the tank returns to Patrol; after the facing branch, the evade point is the tank's position and the next Evade step returns to Patrol |
| TankSpec.NeverMoveTo | Source/Scene/TankEntity.h:203-211 | no Update of a tank outside MoveTo brings it into MoveTo |
| TankSpec.DrainAvoidsMoveTo | Source/Scene/TankEntity.cpp:128-222 | no message handler enters MoveTo |
| TankSpec.UpdateKeepsAmmoInvariant | Source/Scene/TankEntity.cpp:436-440 | given non-negative ammo payloads, ammo is never negative and a tank only aims while it has a shell |
| Tanks.TankEntity.Update | Source/Scene/TankEntity.cpp:104-574 | the tank's new fields, the mailboxes, the shell order and the result are those of `TankSpec.Update`; the waypoint index stays valid |
| Tanks.TankEntity.DrainMessages | Source/Scene/TankEntity.cpp:127-222 | the fetch loop ends in the state `TankSpec.Drain` describes |
| Tanks.TankEntity.HandleMessage | Source/Scene/TankEntity.cpp:130-219 | the switch does what `TankSpec.Handle` says |
| Tanks.TankEntity.HandleHit | Source/Scene/TankEntity.cpp:146-181 | the Hit case leaves the fields and mailboxes as `TankSpec.Handle` of a Hit says: 20 HP lost unless evading, then Dead or the team called for help |
| Tanks.TankEntity.CallForHelp | Source/Scene/TankEntity.cpp:166-177 | the loop leaves the mailboxes as `Broadcast` of the old ones |
| Tanks.TankEntity.StepState | Source/Scene/TankEntity.cpp:225-571 | the state switch after the drain (Inactive, Patrol, Aim, Evade) leaves the fields and the shell order as `TankSpec.Step` says, and keeps the waypoint index valid |
| Tanks.TankEntity.Accelerate | Source/Scene/TankEntity.cpp:317 | only the speed changes, by `TankSpec.Accelerate` toward the given cap: the same rule as at lines 521, 532 and 615 |
| Tanks.TankEntity.PatrolBehaviour | Source/Scene/TankEntity.cpp:231-371 | the Patrol branch does what `TankSpec.PatrolStep` says |
| Tanks.TankEntity.LookForPickup | Source/Scene/TankEntity.cpp:577-630 | returns true exactly when the pack exists and has landed; only then may the speed change, by the acceleration rule toward 1.5 times the maximum |
| Tanks.TankEntity.ScanForEnemies | Source/Scene/TankEntity.cpp:331-367 | the loop over enemies ends in the state `TankSpec.ScanEnemies` describes |
| Shells.NewShell | Source/Scene/ShellEntity.cpp:49-51 | a new shell has lifetime 1.5 and speed 150 |
| Shells.ShellEntity.constructor | Source/Scene/ShellEntity.cpp:37-52 | the new shell stores its own UID and the firing tank's UID, with the fields of `NewShell` |
| Shells.ExpiredShell | Source/Scene/ShellEntity.cpp:107-110 | a shell with no lifetime left is destroyed, sends nothing and scans nothing |
| Shells.LiveShellAdvances | Source/Scene/ShellEntity.cpp:61-66 | otherwise the lifetime drops by dt and the shell moves speed*dt along its facing before the scan |
| Shells.OneHitOnFirstTank | Source/Scene/ShellEntity.cpp:73-114 | a destroyed live shell has sent exactly one Hit, from its own UID, to the first tank in enumeration order it touches, and nothing else; a surviving shell touches no tank and sends nothing |
| Shells.OwnerCanBeHit | Source/Scene/ShellEntity.cpp:73-92 | the firing tank is not excluded: when it is touched first, it gets the Hit |
| Shells.ShellEntity.Fly | Source/Scene/ShellEntity.cpp:61-66 | the lifetime drops by dt and the shell moves speed*dt along its facing, as `Shells.Flight` says; nothing else changes |
| Shells.ShellEntity.Update | Source/Scene/ShellEntity.cpp:58-116 | the new fields, mailboxes and result are those of `Shells.Step` |
| Pickup.NewPack | Source/Scene/HealthEntity.cpp:33-35 | a new pack is falling, not on the ground, with its kind's full lifetime |
| Pickup.DroppingKeepsLifeTime | Source/Scene/HealthEntity.cpp:41-52 | a falling pack survives and sends nothing; above 0.5 it falls by rate*dt and stays Dropping, otherwise it lands at 0.5 and enters TimeOut; nothing else changes |
| Pickup.PhaseOnlyAdvances | Source/Scene/AmmoEntity.cpp:41-54 | the phase only goes from Dropping to TimeOut, so `OnGround` never becomes false again |
| Pickup.TimeOutScan | Source/Scene/HealthEntity.cpp:57-92 | on the ground with time left, the lifetime drops by dt and nothing else changes; the first tank within 5 gets one collection message with the amount and the system gets one notice, and the pack is destroyed; with no tank in reach nothing is sent |
| Pickup.TimeOutExpires | Source/Scene/AmmoEntity.cpp:93-101 | with no time left, the pack is destroyed unchanged and sends only the respawn notice |
| Pickup.OneNoticePerDestruction | Source/Scene/HealthEntity.cpp:79-108 | a false return adds exactly one respawn notice to the system queue; a true return sends nothing |
| Health.HealthEntity.constructor | Source/Scene/HealthEntity.h:38 | a new health pack is Dropping with 15 s of lifetime and the given amount, by default 50 |
| Health.HealthEntity.OnGround | Source/Scene/HealthEntity.h:67-72 | true exactly when not Dropping |
| Health.HealthEntity.Update | Source/Scene/HealthEntity.cpp:39-110 | the new fields, mailboxes and result are those of `Pickup.Step` for health packs |
| Ammo.AmmoEntity.constructor | Source/Scene/AmmoEntity.h:39 | a new ammo pack is Dropping with 10 s of lifetime and the given amount, by default 10 |
| Ammo.AmmoEntity.OnGround | Source/Scene/AmmoEntity.h:68-74 | true exactly when not Dropping |
| Ammo.AmmoEntity.Update | Source/Scene/AmmoEntity.cpp:39-109 | the new fields, mailboxes and result are those of `Pickup.Step` for ammo packs |
| Scene.InitialScene | Source/TankAssignment.cpp:113-118 | at start the health timer is 10, the ammo timer is 15, and nothing is deployed |
| Scene.FetchesAtMostOne | Source/TankAssignment.cpp:559 | one call removes at most the oldest system message and touches no other queue |
| Scene.KindStep | Source/TankAssignment.cpp:562-614 | after the reset, each kind counts down, or releases exactly one named pack and sets deployed, or, when deployed, changes nothing and makes no pack |
| Scene.NoticeDelaysDrop | Source/TankAssignment.cpp:562-585 | a fetched notice resets its kind's timer to 10 or 15 and clears deployed, and no pack of that kind is made in that call |
| Scene.SpawnsInDropArea | Source/TankAssignment.cpp:590-614 | packs appear at height 25: health at x in [-50, 0], ammo at x in [0, 50], both at z in [-40, 10] |
| Scene.SceneKeepsLedger | Source/TankAssignment.cpp:559-614 | the scene call keeps the respawn ledger: when deployed, exactly one live pack or waiting notice per kind; when not deployed, neither |
| Scene.PackUpdateKeepsLedger | Source/Scene/HealthEntity.cpp:79-102 | a pack's Update keeps the ledger, because its notice replaces it when it is destroyed |
| Scene.AtMostOnePack | Source/TankAssignment.cpp:580-595 | under the ledger there is at most one pack of each kind, and none while not deployed |
| Scene.SceneDriver.constructor | Source/TankAssignment.cpp:113-118 | the four globals start as `InitialScene` |
| Scene.SceneDriver.UpdateScene | Source/TankAssignment.cpp:553-615 | the globals, mailboxes and the packs to create, in creation order, are those of `SceneStep` |

## Left out

- Rendering, the camera, the on-screen text, input handling and template loading from XML:
  these are graphics, user interface and file I/O.
- Vector and matrix maths: rotations, `FaceTarget`, `MoveLocalZ` of the hull, dot products
  and `Cos`. The facing and turret-cone tests are boolean inputs. A tank's position changes
  only by sinking, and the turret's orientation is not modelled. A shell's flight is
  modelled as a move along a given facing direction.
- Single-precision floats: timers, speeds and coordinates are exact reals. The integer
  fields (HP, ammo, amounts, UIDs) are unbounded. Their 32-bit overflow is not modelled,
  except in `GetMaxHP` and `GetShellDamage`.
- `Random`: each call's results are inputs (`EvadeDraw`, `DropDraw`). A tank takes one evade
  draw per update. This loses nothing, because each draw overwrites both coordinates while
  the tank's position stays fixed.
- The implementations of the messenger and the entity manager are not part of this model.
  The model relies on the following:
  - mailboxes are first-in-first-out per recipient;
  - enumeration yields the tanks in some order, given as a sequence;
  - lookup reports whether a UID still resolves.

  One quirk of the enumeration is dropped with it. When a shell or a pickup finds a tank,
  it returns from inside the loop without calling `EndEnumEntities`
  (Source/Scene/ShellEntity.cpp:95 and 104, Source/Scene/HealthEntity.cpp:84 and 92), so
  the enumeration it began is never closed. The model has no enumeration state.

  Creating and destroying entities is returned as requests (`ShellOrder`, `PackSpawn`, the
  `alive` result), not performed.
- `UpdateAllEntities`, and the claim that pack deployment happens before it in the same
  call: the model covers only the deployment part of `UpdateScene`. `SceneDriver.UpdateScene`
  returns its creations before any entity is updated.
- The value of `SystemUID` is declared in a header that is not part of this model. A fixed
  constant stands in for it, and no property depends on its value.
- Tanks.TankEntity.Update: requires a waypoint index inside a non-empty patrol list. The
  source would index an empty list out of range on its first Patrol step.
- The ledger lemmas (`Scene.SceneKeepsLedger`, `Scene.PackUpdateKeepsLedger`) cover the
  scene call and the pack updates. They do not prove that tanks and shells never send
  respawn notices, although neither sends one.
- `m_numShellsFired` is a float in the source; the model counts it as a natural number.
  `m_Timer` is never read by the update logic and is not modelled.
- The tank getters `GetSpeed`, `GetHPs`, `GetTankStateText`, `GetNumShellsFired` and
  `GetNumShellsLeft` are plain reads of the fields, without contracts of their own.
