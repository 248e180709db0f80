# Roll-a-ball: player, speed pickups and spinning hazard

A Dafny model of the gameplay scripts of a small Unity "roll a ball" game.
It covers three scripts, each modelled as classes whose methods update fields in place:

- **PlayerController** (`player_controller.dfy`, module `PlayerControl`).
  - Pickup counting, with the win check at `count >= 16`.
  - The count label `"Count: " + count`.
  - The grounded flag. "Ground" contacts set and clear it, and it gates jumping.
  - The enemy-contact lose path.
  - The mouse-look yaw/pitch accumulator, with the pitch clamped to [-45, 60].

  Each handler method is specified by a pure transition function over `PlayerState`.
  `PlayerState` is the value of every field the handlers touch.
  The lemmas are about runs of these transitions (`Run` over a sequence of `Event`s).
- **SpeedPickup** (`speed_pickup.dfy`, module `SpeedBoost`).
  - A boost is additive or multiplicative, and permanent or timed.
  - A timed boost is a coroutine. It snapshots the player's `speed`, boosts it, waits, then writes the snapshot back.
  - The wait is an explicit pending-revert entry held by the pickup.
  - `ResumeRevert` is the step that runs when the wait ends. It overwrites the speed; it does not undo the boost.
  - Pure functions (`ApplyAll`, `Snapshots`, `ResumeAll`) give lemmas about overlapping boosts.
  - `OverlappingAdditiveBoosts` runs the class code on two overlapping pickups.
  - `CollectThenRevert` runs the class code on any list of pickups (`TakeAll`, then `ResumeEach`). It shows the class gives the speeds those functions describe.
- **SpinningHazard / DangerousPart** (`spinning_obstacle.dfy`, module `Hazard`).
  - Selecting the dangerous children: by lower-cased name containing "capsule", or by tag. The child also needs a renderer with a material.
  - The flash timer. It toggles the colour of all parts at most once per frame, then resets to 0.
  - The lethal-contact path. A "Player" contact asks the hazard to kill the player, whatever colour is showing.

`text.dfy` (module `Text`) holds the text functions the scripts rely on:
- decimal rendering of a non-negative count, with its parse-back round trip;
- ASCII lower-casing;
- substring search.

The scripts call `PlayerController.Death()` (Assets/Shared/SpinningObstacle.cs:96), but the controller defines no such method.
The model keeps it opaque: `Death` only increments the `deathRequests` counter.

Some consequences of the code as written, which the model keeps:
- The controller keeps no won or lost flag. It has one win text object, and the lose path re-uses it with the text "You Lose!".
- No handler checks whether the player is still alive. `PickupAfterEnemyContactCounts` shows a pickup after an enemy contact still counts.
- The win branch runs again on every pickup from the 16th on. Each run destroys one more enemy while any remain (`PickupRun`, `WinFirings`).
- A timed boost's revert overwrites the speed with its own snapshot; no stack of modifiers is kept. Reverts run oldest first therefore leave the earlier boosts applied (`ApplicationOrderKeepsAllButLast`).
- A permanent boost schedules no revert at all, so no later revert of its own undoes it; a timed boost's revert may still overwrite it.
- Nothing orders a death request against a winning pickup: both can happen, in either order.

## Model

| member | source | states |
|---|---|---|
| Text.DecimalString | Assets/Scripts/PlayerController.cs:133 | the rendering of a count is non-empty, digits only, starts with '0' exactly when the count is 0, and is exactly "0" for 0, so it never has a leading zero |
| Text.DecimalRoundTrip | Assets/Scripts/PlayerController.cs:133 | reading the rendered digits back gives the count again |
| Text.DecimalStringInjective | Assets/Scripts/PlayerController.cs:133 | two different counts never get the same rendering |
| Text.ContainsSurvivesLower | Assets/Shared/SpinningObstacle.cs:36 | a lower-case fragment found in a name is still found after the name is lower-cased |
| PlayerControl.Clamp | Assets/Scripts/PlayerController.cs:73 | the result lies in [lo, hi]; it is the value itself when inside, lo below the range and hi above it |
| PlayerControl.CountLabel | Assets/Scripts/PlayerController.cs:133 | the label is "Count: " followed by decimal digits whose value is the count, with no leading zero (a '0' after the prefix is the whole number) |
| PlayerControl.AfterSetCountText | Assets/Scripts/PlayerController.cs:129-150 | an assigned label shows the count; at count >= 16 the win object is shown and one enemy is destroyed if any remain; below 16 neither happens; nothing else changes |
| PlayerControl.AfterStart | Assets/Scripts/PlayerController.cs:44-51 | after Start the count is 0, the label reads "Count: 0", the win object is only deactivated, its text kept, and the enemies are untouched |
| PlayerControl.AfterTrigger | Assets/Scripts/PlayerController.cs:152-161 | a "PickUp" trigger raises the count by exactly 1 and runs the label and win check; any other tag changes nothing |
| PlayerControl.AfterCollisionEnter | Assets/Scripts/PlayerController.cs:163-182 | "Ground" sets the grounded flag; "Enemy" destroys the player and shows the win object with the text "You Lose!"; the count never changes; other tags change nothing |
| PlayerControl.AfterCollisionExit | Assets/Scripts/PlayerController.cs:184-191 | leaving "Ground" clears the grounded flag; other tags and other fields are untouched |
| PlayerControl.AfterJump | Assets/Scripts/PlayerController.cs:120-127 | when grounded, exactly one impulse of jumpForce is added and the flag is cleared; when not grounded nothing changes |
| PlayerControl.AfterLook | Assets/Scripts/PlayerController.cs:115-118 | the look vector is stored for the next frame and nothing else changes |
| PlayerControl.AfterUpdate | Assets/Scripts/PlayerController.cs:63-74 | with mouse look on, yaw grows by look.x * sensitivity and pitch becomes clamp(pitch - look.y * sensitivity, -45, 60), so it lies in [-45, 60]; with it off neither angle moves |
| PlayerControl.CountIsPickups | Assets/Scripts/PlayerController.cs:152-182 | over any run of callbacks the count grows by exactly the number of "PickUp" triggers |
| PlayerControl.PickupRun | Assets/Scripts/PlayerController.cs:137-160 | n pickups from count c give count c + n; the win object is shown once c + n >= 16 and untouched below; one enemy is destroyed per win-branch run while any remain |
| PlayerControl.WinExactlyFromSixteen | Assets/Scripts/PlayerController.cs:137-142 | after Start, n pickups show the win object if and only if n >= 16 |
| PlayerControl.NoWinBelowThreshold | Assets/Scripts/PlayerController.cs:137-149 | with no enemy contact and count + pickups below 16, a hidden win object stays hidden over any run |
| PlayerControl.PitchStaysInRange | Assets/Scripts/PlayerController.cs:69-74 | a pitch inside [-45, 60] stays inside it over any run |
| PlayerControl.CameraFrozenWithoutMouseLook | Assets/Scripts/PlayerController.cs:69 | with mouse look off no run moves either camera angle |
| PlayerControl.GroundedOnlyByGroundContact | Assets/Scripts/PlayerController.cs:166-169 | without a "Ground" contact-begin, a player that is not grounded never becomes grounded |
| PlayerControl.StepImpulses | Assets/Scripts/PlayerController.cs:124 | one callback adds an impulse only on a jump press, and then exactly jumpForce |
| PlayerControl.ImpulsesAreJumps | Assets/Scripts/PlayerController.cs:120-127 | every impulse requested over a run is jumpForce, earlier impulses are kept, and there are no more of them than jump presses |
| PlayerControl.LabelTracksCount | Assets/Scripts/PlayerController.cs:129-134 | once the label shows the count, it keeps showing the current count over any run |
| PlayerControl.PickupAfterEnemyContactCounts | Assets/Scripts/PlayerController.cs:152-182 | no handler checks for an earlier enemy contact: a later pickup still raises the count |
| PlayerControl.PlayerController.constructor | Assets/Scripts/PlayerController.cs:9-33 | speed, jumpForce, mouseSensitivity and useMouseLook take the given inspector values (defaults 10, 12, 2, on); count 0, not grounded, angles 0 |
| PlayerControl.PlayerController.Start | Assets/Scripts/PlayerController.cs:36-61 | the new state is AfterStart of the old one |
| PlayerControl.PlayerController.Update | Assets/Scripts/PlayerController.cs:63-78 | the new state is AfterUpdate of the old one, and the pitch stays in [-45, 60] |
| PlayerControl.PlayerController.OnLook | Assets/Scripts/PlayerController.cs:115-118 | the new state is AfterLook of the old one |
| PlayerControl.PlayerController.OnJump | Assets/Scripts/PlayerController.cs:120-127 | the new state is AfterJump of the old one |
| PlayerControl.PlayerController.SetCountText | Assets/Scripts/PlayerController.cs:129-150 | the new state is AfterSetCountText of the old one |
| PlayerControl.PlayerController.OnTriggerEnter | Assets/Scripts/PlayerController.cs:152-161 | the new state is AfterTrigger of the old one; the other object is deactivated exactly when it is a "PickUp" |
| PlayerControl.PlayerController.OnCollisionEnter | Assets/Scripts/PlayerController.cs:163-182 | the new state is AfterCollisionEnter of the old one |
| PlayerControl.PlayerController.OnCollisionExit | Assets/Scripts/PlayerController.cs:184-191 | the new state is AfterCollisionExit of the old one |
| PlayerControl.PlayerController.Death | Assets/Shared/SpinningObstacle.cs:96 | the call is recorded as one more death request and nothing else changes |
| SpeedBoost.Apply | Assets/Shared/SpeedPickup.cs:81-135 | exactly one rule applies: speed * multiplier when isMultiplier, else speed + speedIncrease; a permanent boost schedules no revert; a timed one schedules a revert to the speed just before the boost |
| SpeedBoost.SpeedPickup.constructor | Assets/Shared/SpeedPickup.cs:6-13 | a pickup starts with its settings, not destroyed and with no revert pending |
| SpeedBoost.SpeedPickup.OnTriggerEnter | Assets/Shared/SpeedPickup.cs:48-79 | a "Player" with a controller gets the boost of Apply, the pickup is destroyed and any revert is queued; another tag, or a player without a controller, changes nothing |
| SpeedBoost.SpeedPickup.ApplySpeedBoost | Assets/Shared/SpeedPickup.cs:81-109 | the speed becomes Apply's speed and the pending list grows by Apply's revert, if any |
| SpeedBoost.SpeedPickup.TemporaryAdditiveBoost | Assets/Shared/SpeedPickup.cs:111-118 | the speed grows by speedIncrease and a revert to the speed before the boost is queued |
| SpeedBoost.SpeedPickup.TemporaryMultiplierBoost | Assets/Shared/SpeedPickup.cs:124-131 | the speed is multiplied by multiplier and a revert to the speed before the boost is queued |
| SpeedBoost.SpeedPickup.ResumeRevert | Assets/Shared/SpeedPickup.cs:118-135 | when the oldest pending step runs, the player's speed is set to its snapshot whatever it is by then, the entry is removed, and nothing else about the player changes |
| SpeedBoost.OverlappingAdditiveBoosts | Assets/Shared/SpeedPickup.cs:111-122 | two overlapping additive pickups from s0: speed s0 + 2*inc, then s0 after the first revert while the second is still pending, then s0 + inc after both reverts, not s0 |
| SpeedBoost.Snapshots | Assets/Shared/SpeedPickup.cs:86-89 | only timed boosts leave a snapshot to write back: one per boost when all are timed, none when all are permanent |
| SpeedBoost.ResumeAll | Assets/Shared/SpeedPickup.cs:120 | running reverts in order leaves exactly the last snapshot resumed |
| SpeedBoost.LastSnapshot | Assets/Shared/SpeedPickup.cs:113-114 | the last snapshot is the last timed boost's, taken with every earlier boost applied, whatever permanent boosts follow |
| SpeedBoost.FirstSnapshot | Assets/Shared/SpeedPickup.cs:113-114 | the first snapshot is the first timed boost's, taken with only the permanent boosts before it applied |
| SpeedBoost.ReverseOrderRestoresBaseline | Assets/Shared/SpeedPickup.cs:113-120 | reverts run newest first leave the speed as it was before the first timed boost: s0 when all are timed, and later permanent boosts are undone too |
| SpeedBoost.ApplicationOrderKeepsAllButLast | Assets/Shared/SpeedPickup.cs:113-120 | reverts run oldest first leave the speed as it was before the last timed boost: earlier boosts stay applied and later permanent boosts are lost |
| SpeedBoost.AdditiveBoostsAdd | Assets/Shared/SpeedPickup.cs:101 | additive boosts together add the sum of their increases |
| SpeedBoost.TwoAdditiveBoosts | Assets/Shared/SpeedPickup.cs:99-120 | two additive boosts with reverts run oldest first: both timed end at s0 + a, timed then permanent at s0, permanent then timed at s0 + a, both permanent at s0 + a + b |
| SpeedBoost.TakeAll | Assets/Shared/SpeedPickup.cs:48-114 | one fresh pickup per setting is taken in order: the speed becomes ApplyAll, every pickup is destroyed, each timed one holds its revert to the speed before its boost, and nothing else about the player changes |
| SpeedBoost.ResumeEach | Assets/Shared/SpeedPickup.cs:118-133 | the pickups' reverts run in the order taken leave the speed at ResumeAll of the snapshots, and nothing else about the player changes |
| SpeedBoost.CollectThenRevert | Assets/Shared/SpeedPickup.cs:48-133 | the class code over any list of pickups ends boosted at ApplyAll and, after all reverts in taking order, at ResumeAll of Snapshots |
| Hazard.SelectParts | Assets/Shared/SpinningObstacle.cs:29-58 | a child is a part if and only if it is selected (by name or by tag) and has a renderer and a material |
| Hazard.SelectPartsSplits | Assets/Shared/SpinningObstacle.cs:29-58 | selection goes child by child, so the parts keep the traversal order |
| Hazard.LowerCaseNameSelected | Assets/Shared/SpinningObstacle.cs:33-37 | under name selection, a name containing "capsule" is always selected |
| Hazard.MixedCaseNamesSelected | Assets/Shared/SpinningObstacle.cs:33-42 | "Capsule (1)" and "CAPSULE" are selected by name; "Cylinder" is not, even when tagged "Capsule" |
| Hazard.FlashStep | Assets/Shared/SpinningObstacle.cs:67-84 | the colour toggles exactly when timer + dt >= flashSpeed, at most once, and the timer then restarts at 0; with flashSpeed > 0 the timer ends below flashSpeed |
| Hazard.TimerStaysBelowFlashSpeed | Assets/Shared/SpinningObstacle.cs:67-83 | starting in [0, flashSpeed) with non-negative frame times, the timer stays in [0, flashSpeed) |
| Hazard.ColourFollowsToggles | Assets/Shared/SpinningObstacle.cs:69-72 | the colour ends up flipped exactly when the number of toggles is odd |
| Hazard.TogglesUseUpTime | Assets/Shared/SpinningObstacle.cs:67-83 | toggles times flashSpeed never exceed the time passed, less what the timer still holds |
| Hazard.NonPositiveFlashSpeedTogglesEveryFrame | Assets/Shared/SpinningObstacle.cs:67-72 | with flashSpeed <= 0 every frame toggles |
| Hazard.SpinningHazard.constructor | Assets/Shared/SpinningObstacle.cs:11-21 | the hazard starts with its inspector settings, no parts, timer 0 and not red |
| Hazard.SpinningHazard.Start | Assets/Shared/SpinningObstacle.cs:23-58 | the parts array has one fresh part per child SelectParts keeps, in order, each holding that child's material, the hazard and the normal colour |
| Hazard.SpinningHazard.Update | Assets/Shared/SpinningObstacle.cs:61-85 | timer and colour move as FlashStep says; on a toggle every present part with a material gets dangerColor if red, else normalColor; without one no material changes |
| Hazard.SpinningHazard.KillPlayer | Assets/Shared/SpinningObstacle.cs:87-102 | a death is requested exactly when the player has a controller; otherwise nothing changes |
| Hazard.DangerousPart.constructor | Assets/Shared/SpinningObstacle.cs:112-117 | the part holds the hazard, the material and the original colour |
| Hazard.DangerousPart.SetColor | Assets/Shared/SpinningObstacle.cs:119-125 | the material takes the colour; without a material nothing changes |
| Hazard.DangerousPart.OnCollisionEnter | Assets/Shared/SpinningObstacle.cs:127-134 | a "Player" contact requests one death, whatever the flash colour; other tags change nothing |
| Hazard.DangerousPart.OnTriggerEnter | Assets/Shared/SpinningObstacle.cs:136-143 | a "Player" overlap requests one death, whatever the flash colour; other tags change nothing |

## Left out

- Physics: `FixedUpdate` force computation needs vector normalisation over floats, so it is not modelled. `OnMove` is left out with it, since it only feeds `FixedUpdate`. Rigid-body effects beyond the list of upward impulses requested by `OnJump` are not modelled either.
- Camera placement in `UpdateCamera` (quaternion rotation, offset, `LookAt`) is not modelled; only the accumulated angles are.
- Cosmetics are not modelled: the hazard's spin, the pickup's rotation and sine bob, audio, cursor locking, `Debug.Log` / `Debug.LogError`, and TMPro rendering beyond the label strings.
- EnemyMovement.cs is not part of this model.
- Floats are modelled as exact reals. Rounding, NaN and infinities are not modelled.
- `count` is an unbounded natural. The 32-bit wrap after 2^31 - 1 pickups is not modelled.
- `Time.deltaTime` is a parameter of `Hazard.SpinningHazard.Update`.
- Coroutine timing is not modelled: the wait of `boostDuration` is not represented. A revert is presented only as "when the pending step runs".
- `ResumeEach` runs the reverts in the order the pickups were taken, which is the order equal durations give. Other orders appear only on values (`ReverseOrderRestoresBaseline`), not as class runs.
- In the game, the pickup destroys itself right after starting its coroutine, and the engine stops a destroyed object's coroutines. The model does not claim that a revert ever fires.
- Engine callback semantics are not modelled. `Destroy` takes effect at the end of the frame, and a destroyed object gets no further callbacks. "Each pickup applies at most once" rests on that engine rule. The model only records that a successful pickup is destroyed.
- `GameObject.FindGameObjectWithTag("Enemy")` is modelled as a count of the enemies the search can find. Which enemy is picked is not modelled. Because destruction is deferred, two win branches in one frame may find the same enemy; this is not modelled.
- A win text object without a TextMeshProUGUI component makes line 179 of PlayerController.cs throw after the object has been shown. The model assumes the component is present.
- `string.ToLower` is culture-sensitive in C#. The model lower-cases ASCII letters only.
- The hazard's child traversal (`GetComponentsInChildren`, which also returns the hazard's own transform) is taken as the given sequence of children.
- `Renderer.material` is taken as a plain reference. The engine makes a per-renderer copy of the material; this is not modelled.
- `PlayerController.Death()` has no definition in the source. It is modelled as a recorded request, with no effect on any other state.
