# Movement states, input latch and health of a third-person character

A Dafny model of the discrete logic of a small Unity character project:

- the newer player controller (`Gameplay/Player/PlayerController.cs`): the
  first-match-wins rule that maps four per-frame facts (direction is zero,
  grounded, sliding, jump permission) and the previously held state to one of
  `Idle`, `Move`, `SlideIdle`, `Slide`, `Jump`; the force-multiplier and drag
  tables that consume that state; the key-edge input latch over the sliding
  flag and the jump permission; and the jump reset;
- the older player controller (`PlayerController.cs`), whose latch is the same
  but whose drag and multiplier depend on the sliding flag alone;
- the state holder (`StateController`) with its initial `Idle`;
- the health counter (`HealthManager`) with guarded damage and clamped heal.

Modules: `PlayerStates` (the state enum), `StateControl` (the state holder),
`MovementRules` (classification and lookup tables, with lemmas over runs of
frames), `InputLatch` (the latch shared by both controllers, with lemmas over
runs of frames and cooldown expiries), `GameplayPlayer` (the newer controller
class), `LegacyPlayer` (the older controller class), `Managers` (the health
class). The controllers and the holders are classes whose methods update their
fields; their contracts tie the new fields to the pure functions
`Classify`, `Step`, `Drag`, `DamageResult` and `HealResult`, and the lemmas
state what those functions guarantee.

Tuning values (multipliers, drags, damping) are an opaque type parameter `T`;
no arithmetic is done on them. The literal multiplier 1 is the `neutral` entry
of the tuning record. The movement vector is reduced to whether it is zero,
and the ground probe to a boolean parameter.

## Model

| member | source | states |
|---|---|---|
| MovementRules.Classify | Assets/_GameAssets/Scripts/Gameplay/Player/PlayerController.cs:100-112 | on the ground the result is never Jump; it is Idle or SlideIdle exactly when the direction is zero and SlideIdle or Slide exactly when sliding; in the air it is Jump or the previous state; it is Jump exactly when airborne and either without jump permission or already in Jump; airborne with permission keeps the previous state |
| MovementRules.GroundedRules | Assets/_GameAssets/Scripts/Gameplay/Player/PlayerController.cs:105-108 | each of the four grounded combinations of direction and sliding yields its own state (Idle, Move, SlideIdle, Slide) whatever the previous state |
| MovementRules.JumpPersistsWhileAirborne | Assets/_GameAssets/Scripts/Gameplay/Player/PlayerController.cs:109-110 | over any run of airborne frames the state stays the take-off state or becomes Jump; once Jump it stays Jump until landing; one frame without jump permission suffices to reach Jump |
| MovementRules.LandingForgetsHistory | Assets/_GameAssets/Scripts/Gameplay/Player/PlayerController.cs:105-110 | after a run containing one grounded frame the state does not depend on the state held before the run |
| MovementRules.ForceMultiplier | Assets/_GameAssets/Scripts/Gameplay/Player/PlayerController.cs:129-135 | Slide selects the slide multiplier, Jump the air multiplier, every other state (Move, Idle, SlideIdle) the neutral multiplier 1 |
| MovementRules.Drag | Assets/_GameAssets/Scripts/Gameplay/Player/PlayerController.cs:148-154 | Move, Slide and Jump select ground, slide and air drag whatever the current damping; Idle and SlideIdle leave the current damping unchanged |
| MovementRules.TablesAfterClassify | Assets/_GameAssets/Scripts/Gameplay/Player/PlayerController.cs:100-154 | grounded with zero direction: neutral force and unchanged damping; grounded moving: neutral/ground drag or slide multiplier/slide drag by the sliding flag; airborne without permission: air multiplier and air drag; airborne with permission: the previous state's multiplier and drag |
| InputLatch.Step | Assets/_GameAssets/Scripts/Gameplay/Player/PlayerController.cs:68-82 | a slide-key edge latches sliding whatever else is pressed; a movement-key edge clears it only without a slide edge; sliding changes only on an edge; permission is lost exactly when the jump fires (no edge, jump held, permission, grounded) and is never regained by a frame; the jump leaves sliding alone |
| InputLatch.ResetJump | Assets/_GameAssets/Scripts/Gameplay/Player/PlayerController.cs:187-191 | permission is restored and sliding is untouched |
| InputLatch.JumpsNeedExpiries | Assets/_GameAssets/Scripts/Gameplay/Player/PlayerController.cs:77-81 | along any run of frames and cooldown expiries, jumps fired plus permission left never exceed expiries plus permission at the start; without an expiry at most one jump fires, and none without initial permission |
| InputLatch.SlidingFollowsKeys | Assets/_GameAssets/Scripts/Gameplay/Player/PlayerController.cs:68-75 | a run with no slide or movement key edge leaves the sliding flag as it was, whatever jumps and expiries happen |
| GameplayPlayer.PlayerController.constructor | Assets/_GameAssets/Scripts/Gameplay/Player/PlayerController.cs:37-45 | the controller starts with the serialized flags and tuning, the rigidbody's damping and the sibling state holder |
| GameplayPlayer.PlayerController.SetInputs | Assets/_GameAssets/Scripts/Gameplay/Player/PlayerController.cs:60-83 | the flags afterwards are one latch step from the flags before, and the jump is started exactly when the jump branch fires |
| GameplayPlayer.PlayerController.SetStates | Assets/_GameAssets/Scripts/Gameplay/Player/PlayerController.cs:92-121 | the held state becomes the classification of this frame's facts and the previous state; when that equals the previous state the holder is not touched |
| GameplayPlayer.PlayerController.SetPlayerMovement | Assets/_GameAssets/Scripts/Gameplay/Player/PlayerController.cs:129-135 | the force multiplier is the table entry for the held state, and nothing changes |
| GameplayPlayer.PlayerController.SetPlayerDrag | Assets/_GameAssets/Scripts/Gameplay/Player/PlayerController.cs:144-158 | the damping becomes the drag table entry for the held state, the old damping for Idle and SlideIdle |
| GameplayPlayer.PlayerController.ResetPlayerJump | Assets/_GameAssets/Scripts/Gameplay/Player/PlayerController.cs:187-191 | permission is restored; sliding, damping and the state holder are untouched |
| GameplayPlayer.PlayerController.Update | Assets/_GameAssets/Scripts/Gameplay/Player/PlayerController.cs:47-53 | latch step, then classification over the flags just written, then drag for the new state; the frame a jump starts is never classified Jump |
| LegacyPlayer.PlayerController.constructor | Assets/_GameAssets/Scripts/PlayerController.cs:37-42 | the controller starts with the serialized flags and tuning and the rigidbody's damping |
| LegacyPlayer.PlayerController.SetInputs | Assets/_GameAssets/Scripts/PlayerController.cs:56-79 | the same latch step as the newer controller, with the jump started exactly when the jump branch fires |
| LegacyPlayer.LegacyForceMultiplier | Assets/_GameAssets/Scripts/PlayerController.cs:89-96 | the slide multiplier while sliding, the unscaled force (multiplier 1) otherwise |
| LegacyPlayer.LegacyDrag | Assets/_GameAssets/Scripts/PlayerController.cs:100-111 | slide drag while sliding, ground drag otherwise, independent of the damping held before |
| LegacyPlayer.PlayerController.SetPlayerMovement | Assets/_GameAssets/Scripts/PlayerController.cs:89-96 | the multiplier is LegacyForceMultiplier of the sliding flag: the slide multiplier while sliding and unscaled otherwise |
| LegacyPlayer.PlayerController.SetPlayerDrag | Assets/_GameAssets/Scripts/PlayerController.cs:100-111 | the damping is always overwritten: slide drag while sliding, ground drag otherwise |
| LegacyPlayer.PlayerController.ResetPlayerJump | Assets/_GameAssets/Scripts/PlayerController.cs:136-140 | permission is restored and nothing else changes |
| LegacyPlayer.PlayerController.Update | Assets/_GameAssets/Scripts/PlayerController.cs:44-49 | latch step, then a damping that is the slide or ground drag whatever it was before |
| LegacyPlayer.AgreesOnGroundedMotion | Assets/_GameAssets/Scripts/PlayerController.cs:89-111 | on a grounded frame with non-zero direction the newer controller's state-based multiplier and drag equal the older controller's sliding-based ones |
| StateControl.StateController.constructor | Assets/_GameAssets/Scripts/Gameplay/Player/StateController.cs:6 | before Start the holder has the enum's default value |
| StateControl.StateController.Start | Assets/_GameAssets/Scripts/Gameplay/Player/StateController.cs:8-12 | after Start the held state is Idle |
| StateControl.StateController.ChangeState | Assets/_GameAssets/Scripts/Gameplay/Player/StateController.cs:13-18 | afterwards the held state is the requested one; requesting the held state changes nothing, so a second identical call is a no-op (idempotence) |
| StateControl.StateController.GetCurrentState | Assets/_GameAssets/Scripts/Gameplay/Player/StateController.cs:20-24 | returns the held state and modifies nothing |
| Managers.DamageResult | Assets/_GameAssets/Scripts/Managers/HealthManager.cs:14-25 | positive health loses exactly the amount with no floor at zero; health at or below zero is unchanged; non-negative damage never raises health |
| Managers.HealResult | Assets/_GameAssets/Scripts/Managers/HealthManager.cs:26-32 | at or above the maximum nothing changes; below it the result never exceeds the maximum, reaches it exactly when the amount covers the gap, and is health plus amount otherwise; a non-negative heal never lowers health |
| Managers.HealthNeverExceedsMax | Assets/_GameAssets/Scripts/Managers/HealthManager.cs:14-32 | from health at most the maximum, any run of non-negative damage and any heals keeps health at most the maximum |
| Managers.DepletedHealthIgnoresDamage | Assets/_GameAssets/Scripts/Managers/HealthManager.cs:16 | once health is at most zero, any run of damage leaves it unchanged |
| Managers.HealthManager.constructor | Assets/_GameAssets/Scripts/Managers/HealthManager.cs:5-7 | a fresh component has maximum 3 and health 0 |
| Managers.HealthManager.WithMaxHealth | Assets/_GameAssets/Scripts/Managers/HealthManager.cs:5 | a component with an inspector-set maximum, health 0 |
| Managers.HealthManager.Start | Assets/_GameAssets/Scripts/Managers/HealthManager.cs:9-12 | health becomes the maximum |
| Managers.HealthManager.Damage | Assets/_GameAssets/Scripts/Managers/HealthManager.cs:14-25 | health becomes the damage result of the old health; the maximum is outside the frame and cannot change |
| Managers.HealthManager.Heal | Assets/_GameAssets/Scripts/Managers/HealthManager.cs:26-32 | health becomes the heal result of the old health against the maximum; the maximum cannot change |

## Left out

- Physics: `AddForce`, the jump's vertical velocity reset and impulse (`SetPlayerJump`), and `LimitPlayerSpeed`'s clamping of the flat velocity are floating-point engine calls; the model records only that a jump fired and which multiplier and damping are selected.
- The ground probe (`Physics.Raycast`) is a boolean parameter; it is assumed to answer the same to both of its calls within one Update.
- Input polling (`GetAxisRaw`, `GetKeyDown`, `GetKey`) is a `Keys` parameter; the axis values only feed the movement direction, which is reduced to "is zero" (its construction from the orientation transform and normalisation is left out, as is the timing difference between Update and FixedUpdate that writes it).
- The `Invoke` cooldown timer is an explicit event (`CooldownExpired`, `ResetPlayerJump`) with no notion of time.
- Multiplier, drag and damping values are an opaque type; the force's magnitude is not modelled.
- The third-person camera controller is vector arithmetic with no discrete logic and is not part of this model.
- `Debug.Log`, `Awake`'s rotation freezing and component lookup, and the health manager's animation and death hooks (empty TODO branches) are left out.
- The declaration of the `PlayerState` enum is not part of this model; the five values are those the classifier produces, and the holder's value before `Start` is a constructor parameter because the enum's default member is not known.
- Managers.HealthManager.Damage: does not model 32-bit wrap-around of C# `int`; health is an unbounded integer.
- Managers.HealthManager.Heal: does not model 32-bit wrap-around of `_currentHealth + healAmount`; health is an unbounded integer.
