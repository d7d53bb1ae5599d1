# Help the Ducklings — a verified model of the game's core

This project models the game logic of *Help the Ducklings*, a Unity 2D platformer. The player
collects lost ducklings, which then follow in a single line and must be led to the exit. Enemies
patrol the level, chase the player and knock ducks off the line.

The model covers:

- **The duck line** (`duck_chain.dfy`). Every `DuckController` links to what it follows and to the duck that follows it. `PlayerAttachment` keeps the head, the tail and a follower flag. A ghost sequence `Chain` with the invariant `Valid()` ties these links to one list. Joining, detaching the tail, draining the line and walking it are all proved against that list.
- **The exit** (`exit_controller.dfy`). It drains up to 100 ducks tail first, scores them, and plays a clamped queue of pick-up sounds, one resumable step per wait.
- **Enemies** (`enemy.dfy`):
  - the patrol/chase mode flags and the vision decision;
  - the alert countdown with reset, and the chase that ends it;
  - enabling and disabling, which restart or stop the coroutines;
  - the adaptive jump threshold;
  - the line-of-sight scan;
  - the stuck detection of the patrol walk.
- **The activity manager** (`activity_manager.dfy`, with `registry.dfy`):
  - duplicate-free registries of ducks and enemies;
  - the camera rectangles;
  - the visibility test;
  - the culling pass, which toggles only objects that are ready for it.
- **The game manager** (`game_manager.dfy`): index queries, activity switches, active counts, and the list of ducks collected at the exit.
- **The object fabric** (`object_fabric.dfy`): the Fisher–Yates shuffle and the spawn pool.
- **The remaining core classes**, each in its own file:
  - the scene list (`scene_list.dfy`);
  - the player controller (`player_controller.dfy`);
  - the gameplay manager (`gameplay_manager.dfy`);
  - the collision dispatcher (`collision_handler.dfy`);
  - the sound-effect manager (`sound_fx.dfy`).

**How the engine appears in the model**

- Unity objects become Dafny classes whose methods update fields in place, as the C# does.
- A component and its game object are one `Registry.GameObject`. A destroyed object, which Unity compares equal to null, is a `destroyed` flag.
- A `ref List` parameter becomes a selector (`Kind`) naming the manager's list it assigns.
- Null lists are `Option` values.
- Coroutines become explicit steps. A step method is the code between two yields, and the caller chooses the order of the steps, so other events (a duck reaching the exit, an object being disabled) can fall between them. `StartCoroutine` runs the body up to its first yield at once. A coroutine handle is a phase field (`Enemy.AlertPhase`, `Exit.SoundPhase`) or a flag. The patrol walk is the one coroutine still run in one call; "## Left out" says so.
- Physics queries, the frame time, the random draws and distances come in as arguments. Distances are compared squared, so the model needs no square root.
- Floats are `real`.

## Model

| member | source | states |
|---|---|---|
| DuckChain.DuckController.constructor | Assets/_Project/Scripts/Gameplay/Duck/DuckController.cs:103-110 | a new duck is in no line and airborne; catch radius 0.75 |
| DuckChain.DuckController.InitPlayer | Assets/_Project/Scripts/Gameplay/Duck/DuckController.cs:97-101 | the player reference is the one given |
| DuckChain.DuckController.CleanDuckFollower | Assets/_Project/Scripts/Gameplay/Duck/DuckController.cs:69-74 | following, follower flag and child cleared; the parent link is outside the frame, so it stays |
| DuckChain.DuckController.UpdateParentChildRelation | Assets/_Project/Scripts/Gameplay/Duck/DuckController.cs:81-89 | the four link fields take the given values and nothing else changes |
| DuckChain.DuckController.CleanDuckParent | Assets/_Project/Scripts/Gameplay/Duck/DuckController.cs:91-95 | no parent, grounded, wander anchor at the current position, so a detached duck wanders rather than floats |
| DuckChain.DuckController.CleanDuckChild | Assets/_Project/Scripts/Gameplay/Duck/DuckController.cs:69-74 | the child half of CleanDuckFollower, as the detach calls it: no follower, no child |
| DuckChain.DuckController.CancelIsAirbornAndSavePosition | Assets/_Project/Scripts/Gameplay/Duck/DuckController.cs:361-366 | grounded, with the anchor at the current position |
| DuckChain.DuckController.SetUpBehaviour | Assets/_Project/Scripts/Gameplay/Duck/DuckController.cs:117-128 | not following, no follower, airborne exactly when the duck has a rigidbody |
| DuckChain.DuckController.SelectBehaviour | Assets/_Project/Scripts/Gameplay/Duck/DuckController.cs:156-170 | the dispatch is exhaustive and exclusive: float iff airborne and not following, wander iff neither, follow iff following |
| DuckChain.DuckController.AddDuck | Assets/_Project/Scripts/Gameplay/Duck/DuckController.cs:230-241 | the duck's links are set; the player records it as head and tail, or only as tail |
| DuckChain.DuckController.FollowPlayer | Assets/_Project/Scripts/Gameplay/Duck/DuckController.cs:201-228 | with no follower the duck becomes head and tail and the line is exactly [duck]; the other branch links behind the head without touching the head's child |
| DuckChain.DuckController.FollowDuck | Assets/_Project/Scripts/Gameplay/Duck/DuckController.cs:244-269 | attaches only to a non-null duck with no follower; then both sides' links are set and the duck is appended to the line; otherwise nothing changes, so the line never branches |
| DuckChain.DuckController.CatchAreaCheck | Assets/_Project/Scripts/Gameplay/Duck/DuckController.cs:427-454 | a following duck changes nothing; a free duck joins iff it overlaps the player or is within the catch radius of an existing tail, and the line grows by exactly that duck |
| DuckChain.DuckController.Detach | Assets/_Project/Scripts/Gameplay/Duck/DuckController.cs:299-303 | the tail of the player's line leaves, whichever duck asked |
| DuckChain.PlayerAttachment.constructor | Assets/_Project/Scripts/Gameplay/Player/PlayerAttachment.cs:135-145 | the line is empty and valid |
| DuckChain.PlayerAttachment.UpdateLink | Assets/_Project/Scripts/Gameplay/Player/PlayerAttachment.cs:24-31 | clears the flag and tail only without a head, otherwise changes nothing; keeps the line valid |
| DuckChain.PlayerAttachment.CreateFollowChild | Assets/_Project/Scripts/Gameplay/Player/PlayerAttachment.cs:34-41 | head = tail = the duck, flag set |
| DuckChain.PlayerAttachment.UpdateLastInLine | Assets/_Project/Scripts/Gameplay/Player/PlayerAttachment.cs:43-50 | tail and cached tail controller are the duck given |
| DuckChain.PlayerAttachment.PlayerAttachmentsUpdate | Assets/_Project/Scripts/Gameplay/Player/PlayerAttachment.cs:159-164 | flag, head and tail take the given values |
| DuckChain.PlayerAttachment.DetachLastInLine | Assets/_Project/Scripts/Gameplay/Player/PlayerAttachment.cs:52-107 | no cached tail: null and no change; a duck parent becomes the new tail; a player parent empties the line; an orphan tail empties it but returns null; the detached duck ends released; on a valid line the result is the last duck and the line loses exactly it |
| DuckChain.PlayerAttachment.DetachWholeLink | Assets/_Project/Scripts/Gameplay/Player/PlayerAttachment.cs:109-133 | the loop ends with an empty valid line, head and tail null, and every duck that was in line released |
| DuckChain.PlayerAttachment.OnEnemyCollision | Assets/_Project/Scripts/Gameplay/Player/PlayerAttachment.cs:166-179 | an enemy hit with a follower drops exactly the last duck; anything else changes nothing |
| DuckChain.PlayerAttachment.TrackChain | Assets/_Project/Scripts/Gameplay/Player/PlayerAttachment.cs:181-217 | walking parent links from the tail counts exactly the length of the line |
| DuckChain.BuildLineOfThree | Assets/_Project/Scripts/Gameplay/Duck/DuckController.cs:427-454 | three ducks caught by overlap or distance form the valid line [a, b, c] |
| DuckChain.JoinThenLeaveScenario | Assets/_Project/Scripts/Gameplay/Player/PlayerAttachment.cs:52-107 | three distinct ducks join; three detaches return them in reverse order, all released, and the line is empty |
| Exit.TailFirst | Assets/_Project/Scripts/Gameplay/ExitController.cs:31-46 | the first k ducks taken tail first are the last k ducks of the line in reverse |
| Exit.ExitController.constructor | Assets/_Project/Scripts/Gameplay/ExitController.cs:54-63 | score zero, nothing queued, no playback; the playback invariant holds |
| Exit.ExitController.DetachLastOne | Assets/_Project/Scripts/Gameplay/ExitController.cs:24-52 | no-op without player references or follower; otherwise min(n, 100) ducks leave tail first, score and queue grow by exactly that, all leave released, and the playback starts when it is idle and the audio is present; the score never decreases; the playback invariant is kept |
| Exit.ExitController.OnTriggerEnter | Assets/_Project/Scripts/Gameplay/ExitController.cs:78-85 | only the player or a duck drains the line, with the score growing by min(n, 100); any other contact changes neither the line, the score, the queue nor the playback; the playback invariant is kept |
| Exit.ExitController.ResumeAfterDelay | Assets/_Project/Scripts/Gameplay/ExitController.cs:89-90 | after the first wait, the event reports the queue as it is then, only when positive; no other step reports |
| Exit.ExitController.ResumeAfterReport | Assets/_Project/Scripts/Gameplay/ExitController.cs:90-94 | after the report, the queue is clamped to 5 and becomes the pitch; a positive queue plays one sound, an empty one ends the playback with pitch 1 |
| Exit.ExitController.ResumeAfterRepeat | Assets/_Project/Scripts/Gameplay/ExitController.cs:94-105 | after each sound's wait, the queue drops by one without a new clamp; the last sound ends the playback with queue 0 and pitch 1 |
| Exit.ExitController.LoopTest | Assets/_Project/Scripts/Gameplay/ExitController.cs:94-105 | a queued duck with the audio present plays a sound; an empty queue restores the pitch, empties the queue and clears the handle; without the audio nothing moves |
| Exit.PlayRemaining | Assets/_Project/Scripts/Gameplay/ExitController.cs:94-105 | resumed after each wait, the playback plays every queued duck but the one sounding and ends idle with queue 0 and pitch 1 |
| Exit.ThreeReachExit | Assets/_Project/Scripts/Gameplay/ExitController.cs:24-52 | three ducks drained from a line are reported as 3, and the first sound plays |
| Exit.LateDuckPlayedButNotReported | Assets/_Project/Scripts/Gameplay/ExitController.cs:42 | a duck reaching the exit during the playback is scored and played but not reported: 4 scored, 4 played, one report of 3 |
| Exit.ExitController.UpdatePoints | Assets/_Project/Scripts/Gameplay/ExitController.cs:119-126 | the collected event fires iff the amount is positive, carrying it |
| Sound.ChosenVolume | Assets/_Project/Scripts/Sound/SoundFXManager.cs:60-66 | overridden: the stored volume; otherwise the passed one |
| Sound.SoundFXManager.constructor | Assets/_Project/Scripts/Sound/SoundFXManager.cs:20-32 | full volume, not overridden, pitch 1 |
| Sound.SoundFXManager.ChangeVolume | Assets/_Project/Scripts/Sound/SoundFXManager.cs:72-79 | GetVolume() is the new value, and the override flag is false iff it is 1.0 |
| Sound.SoundFXManager.SetVolume | Assets/_Project/Scripts/Sound/SoundFXManager.cs:81-84 | the same effect as ChangeVolume |
| Sound.SoundFXManager.SetSoundFxPitch | Assets/_Project/Scripts/Sound/SoundFXManager.cs:91-94 | the pitch is the value given |
| Sound.SoundFXManager.ResetSoundFxPitch | Assets/_Project/Scripts/Sound/SoundFXManager.cs:101-104 | the pitch is 1 |
| Sound.SoundFXManager.PlayRandomSoundFXClip | Assets/_Project/Scripts/Sound/SoundFXManager.cs:49-70 | null or empty array: nothing; otherwise a clip index in range at the chosen volume, stored only when not overridden |
| Enemy.Clamp01 | Assets/_Project/Scripts/Gameplay/Enemy/EnemyController.cs:368-376 | the result lies in [0, 1] and is the input inside that range |
| Enemy.SpeedMultiplier | Assets/_Project/Scripts/Gameplay/Enemy/EnemyController.cs:368-376 | clamp01 of the force ratio in [0, 1]; undefined (NaN) exactly for 0/0 |
| Enemy.AdaptiveDistance | Assets/_Project/Scripts/Gameplay/Enemy/EnemyController.cs:368-376 | the jump threshold lies in [1.5, 3.0] |
| Enemy.JumpThresholdIsThree | Assets/_Project/Scripts/Gameplay/Enemy/EnemyController.cs:368-376 | with either mode force the enemy jumps iff the obstacle is closer than 3; with a zero default it never jumps |
| Enemy.VisionDecision | Assets/_Project/Scripts/Gameplay/Enemy/EnemyController.cs:221-224 | aggressive iff the player is in view or the alert is on |
| Enemy.ResetCountDown | Assets/_Project/Scripts/Gameplay/Enemy/EnemyController.cs:555-567 | the loop's timer follows the reset-then-subtract rule frame by frame, and it expires exactly when the timer is no longer positive |
| Enemy.CountAfterWithoutReset | Assets/_Project/Scripts/Gameplay/Enemy/EnemyController.cs:559-565 | without resets the timer is the delay minus the elapsed time |
| Enemy.CountAfterAlwaysReset | Assets/_Project/Scripts/Gameplay/Enemy/EnemyController.cs:559-565 | a reset on every frame keeps the timer positive, so the countdown never expires |
| Enemy.MoveRun | Assets/_Project/Scripts/Gameplay/Enemy/EnemyController.cs:569-622 | the walk consumes frames within the list |
| Enemy.StuckNeedsConsecutiveFrames | Assets/_Project/Scripts/Gameplay/Enemy/EnemyController.cs:606-621 | the walk ends stuck only after more than 20 consecutive stuck frames |
| Enemy.ConsecutiveStuckFramesStop | Assets/_Project/Scripts/Gameplay/Enemy/EnemyController.cs:606-621 | 21 consecutive stuck frames end the walk as stuck, at exactly that frame |
| Enemy.SmallDirectionsKeepFacing | Assets/_Project/Scripts/Gameplay/Enemy/EnemyController.cs:624-633 | a walk whose directions all stay within 0.01 of zero keeps the facing |
| Enemy.LastClearDirectionDecides | Assets/_Project/Scripts/Gameplay/Enemy/EnemyController.cs:624-633 | after a frame with a clear horizontal direction the enemy faces that way, whatever came before |
| Enemy.ScanStop | Assets/_Project/Scripts/Gameplay/Enemy/EnemyController.cs:291-332 | the scan stops at the first hit that is the player or an armed close obstacle, and at no earlier hit |
| Enemy.EnemyController.constructor | Assets/_Project/Scripts/Gameplay/Enemy/EnemyController.cs:66-82 | Awake before its patrol start: all mode flags false, canMove true, not grounded, no coroutine handle, the force recorded as default; the mode invariant holds |
| Enemy.EnemyController.InitSettings | Assets/_Project/Scripts/Gameplay/Enemy/EnemyController.cs:118-125 | all mode flags false, canMove true |
| Enemy.EnemyController.UpdateSpriteFlip | Assets/_Project/Scripts/Gameplay/Enemy/EnemyController.cs:624-633 | faces the movement direction once its size is above 0.01, else keeps facing |
| Enemy.EnemyController.UpdateSpriteFlipTowardsPlayer | Assets/_Project/Scripts/Gameplay/Enemy/EnemyController.cs:635-650 | faces the player when there is one and the offset is above 0.01 |
| Enemy.EnemyController.SwitchToAggressive | Assets/_Project/Scripts/Gameplay/Enemy/EnemyController.cs:266-275 | chasing, not patrolling, force 1.5 × default; a no-op when already chasing; keeps the mode invariant |
| Enemy.EnemyController.SwitchToPassive | Assets/_Project/Scripts/Gameplay/Enemy/EnemyController.cs:277-286 | patrolling, not chasing, canMove, default force; a no-op when already patrolling |
| Enemy.EnemyController.CancelAlertness | Assets/_Project/Scripts/Gameplay/Enemy/EnemyController.cs:535-545 | alert stopped; player-in-view, alert flag and chasing all false |
| Enemy.EnemyController.StartAlert | Assets/_Project/Scripts/Gameplay/Enemy/EnemyController.cs:547-558 | the alert coroutine's first run: player in view, and the countdown's first pass |
| Enemy.EnemyController.AlertTick | Assets/_Project/Scripts/Gameplay/Enemy/EnemyController.cs:547-567 | one frame of the countdown; its end clears player-in-view and then the alert flag; while the flag is set a positive timer stays positive; a stopped countdown does nothing |
| Enemy.EnemyController.PlayerAhead | Assets/_Project/Scripts/Gameplay/Enemy/EnemyController.cs:336-358 | the alert is running with its flag set; a jump is armed iff obstacles were in front or already armed |
| Enemy.EnemyController.CheckLineOfSight | Assets/_Project/Scripts/Gameplay/Enemy/EnemyController.cs:291-332 | meets the player iff the scan stops at a player hit; without the player and with no alert, the alert is cancelled; keeps the mode invariant |
| Enemy.EnemyController.VisionTick | Assets/_Project/Scripts/Gameplay/Enemy/EnemyController.cs:216-225 | after the pass the mode matches the vision decision; seeing the player means chasing with the alert running and a jump armed iff obstacles came first; an armed obstacle that ends the scan starts a jump; a running alert keeps the chase; modes stay exclusive |
| Enemy.EnemyController.StartPatrol | Assets/_Project/Scripts/Gameplay/Enemy/EnemyController.cs:127-141 | as written: the ground probe's first pass sets the grounded flag, the enemy is patrolling afterwards, and one that sees the player at once is chasing and patrolling |
| Enemy.EnemyController.StartPatrolCorrected | Assets/_Project/Scripts/Gameplay/Enemy/EnemyController.cs:127-141 | with the flag set first, the mode after the first pass matches the vision decision and the modes stay exclusive |
| Enemy.EnemyController.IsOnGround | Assets/_Project/Scripts/Gameplay/Enemy/EnemyController.cs:526-533 | the grounded flag and the result are the ground overlap |
| Enemy.EnemyController.GroundTick | Assets/_Project/Scripts/Gameplay/Enemy/EnemyController.cs:252-262 | each pass of the ground checker records the ground overlap |
| Enemy.EnemyController.AwakeStartPatrol | Assets/_Project/Scripts/Gameplay/Enemy/EnemyController.cs:72-83 | Awake's patrol start: the handle is set, the enemy patrols, and one that sees the player at once also chases |
| Enemy.EnemyController.OnEnable | Assets/_Project/Scripts/Gameplay/Enemy/EnemyController.cs:89-93 | the settings are reset; with the handle set nothing else changes; with it cleared the patrol restarts as written, so seeing the player leaves the enemy chasing and patrolling |
| Enemy.EnemyController.OnEnableCorrected | Assets/_Project/Scripts/Gameplay/Enemy/EnemyController.cs:89-93 | the same with the corrected start: seeing the player leaves it chasing only, and the mode invariant is kept |
| Enemy.EnemyController.OnDisable | Assets/_Project/Scripts/Gameplay/Enemy/EnemyController.cs:95-99 | the patrol handle is cleared and the chase stops; a running alert is stopped but keeps its handle |
| Enemy.EnemyController.ChaseLoopTest | Assets/_Project/Scripts/Gameplay/Enemy/EnemyController.cs:186-207 | while chasing under the alert time one more frame is counted; otherwise the alert is cancelled and the enemy stops; the mode invariant is kept |
| Enemy.EnemyController.KeepChasing | Assets/_Project/Scripts/Gameplay/Enemy/EnemyController.cs:181-208 | the chase starts with the enemy free to move and counts its first frame, or ends at once when not chasing or the alert time is not positive |
| Enemy.EnemyController.ChaseTick | Assets/_Project/Scripts/Gameplay/Enemy/EnemyController.cs:184-207 | each fixed frame adds the frame time while chasing under the alert time, then the chase cancels the alert and stops the enemy; a no-op when no chase runs |
| Enemy.EnemyController.Move | Assets/_Project/Scripts/Gameplay/Enemy/EnemyController.cs:569-622 | the loop's outcome is MoveRun's; afterwards canMove holds iff the walk fell or is still moving; the facing is FacingAfter of the frames whose body started, the falling frame included |
| Enemy.EnemyController.OnDuckCollision | Assets/_Project/Scripts/Gameplay/Enemy/EnemyController.cs:656-667 | a following duck makes its player drop exactly the last duck; a free duck changes no line |
| Enemy.EnemyController.OnPlayerCollision | Assets/_Project/Scripts/Gameplay/Enemy/EnemyController.cs:669-684 | a found player is kicked and loses control; the enemy has the player in view and chases; with the mode invariant, not patrolling |
| Enemy.StartPatrolSeesPlayerOnReEnable | Assets/_Project/Scripts/Gameplay/Enemy/EnemyController.cs:89-99 | a culled enemy re-enabled with the player in its first vision ray ends chasing and patrolling at once |
| Enemy.StartPatrolCorrectedSeesPlayerOnReEnable | Assets/_Project/Scripts/Gameplay/Enemy/EnemyController.cs:89-99 | the same input, corrected: chasing and not patrolling |
| Enemy.SpawnSeesPlayerConsistent | Assets/_Project/Scripts/Gameplay/Enemy/EnemyController.cs:83-93 | at spawn the OnEnable after Awake undoes the first pass: neither chasing nor patrolling |
| Enemy.GroundedChaserJumps | Assets/_Project/Scripts/Gameplay/Enemy/EnemyController.cs:307-319 | a grounded chaser with the alert on jumps at a close obstacle before the player and keeps chasing |
| Enemy.ChaseTimesOut | Assets/_Project/Scripts/Gameplay/Enemy/EnemyController.cs:181-208 | with the player still in view, the chase ends after the alert time: not chasing, alert off, not moving, no chase running |
| Registry.GameObject.constructor | Assets/_Project/Scripts/Core/Tools/ObjectFabric.cs:34 | a live object at the position, with the activity and controllers given |
| Registry.GameObject.SetActive | Assets/_Project/Scripts/Core/Managers/GameManager.cs:145 | the active flag is the value given |
| Registry.ContainsComponent | Assets/_Project/Scripts/Core/Managers/ActivityManager.cs:195-198 | true iff some entry is the component |
| Registry.AddObject | Assets/_Project/Scripts/Core/Managers/ActivityManager.cs:183-193 | true iff the component is non-null and absent; then it is appended; a null list becomes empty |
| Registry.AddObjectKeepsNoDups | Assets/_Project/Scripts/Core/Managers/GameManager.cs:200-210 | a duplicate-free list stays so, the result is true iff the list grew, and the component is in it afterwards |
| Registry.RemoveAll | Assets/_Project/Scripts/Core/Managers/ActivityManager.cs:243 | every occurrence goes and all else keeps its multiplicity |
| Registry.RemoveAllOf | Assets/_Project/Scripts/Core/Managers/ActivityManager.cs:252 | exactly the members of the given list go |
| Registry.RemoveFirst | Assets/_Project/Scripts/Core/Managers/GameManager.cs:222 | a contained element loses one occurrence; otherwise no change |
| Registry.RemoveFirstLeavesNone | Assets/_Project/Scripts/Core/Managers/GameManager.cs:222 | on a duplicate-free list no occurrence is left |
| Registry.RemoveAllKeepsNoDups | Assets/_Project/Scripts/Core/Managers/ActivityManager.cs:239-245 | removal keeps a list duplicate-free |
| Registry.RemoveAllOfKeepsNoDups | Assets/_Project/Scripts/Core/Managers/ActivityManager.cs:247-253 | removal of a set keeps a list duplicate-free |
| Activity.StandardViewRect | Assets/_Project/Scripts/Core/Managers/ActivityManager.cs:86-97 | height twice the orthographic size, width aspect times that, centred on the camera |
| Activity.ExtendedViewRect | Assets/_Project/Scripts/Core/Managers/ActivityManager.cs:100-108 | (1 + offset) times the standard size, same centre |
| Activity.ExtendedCoversStandard | Assets/_Project/Scripts/Core/Managers/ActivityManager.cs:82-109 | with offset ≥ 0 every point the camera sees is in the culling rectangle |
| Activity.TooFarMatchesDistance | Assets/_Project/Scripts/Core/Managers/ActivityManager.cs:117-118 | the squared-distance test agrees with distance > limit |
| Activity.LinedDuckNotReady | Assets/_Project/Scripts/Core/Managers/ActivityManager.cs:168-180 | a duck in the line (not a patrolling enemy) is never toggled |
| Activity.ActivityManager.Default | Assets/_Project/Scripts/Core/Managers/ActivityManager.cs:30-34 | no lists, no camera, culling 0, offsets 0.3 and 20 |
| Activity.ActivityManager.constructor | Assets/_Project/Scripts/Core/Managers/ActivityManager.cs:36-47 | the settings given |
| Activity.ActivityManager.SetTargetCamera | Assets/_Project/Scripts/Core/Managers/ActivityManager.cs:74-77 | the camera given |
| Activity.ActivityManager.SetList | Assets/_Project/Scripts/Core/Managers/ActivityManager.cs:183-186 | the selected list is assigned and the other kept |
| Activity.ActivityManager.UpdateCameraRects | Assets/_Project/Scripts/Core/Managers/ActivityManager.cs:82-109 | no camera: nothing; otherwise the two rectangles of the camera |
| Activity.ActivityManager.IsObject2DVisible | Assets/_Project/Scripts/Core/Managers/ActivityManager.cs:111-123 | visible iff inside the culling rectangle and, when culling is on, not beyond culling + offset |
| Activity.ActivityManager.NextActiveIdempotent | Assets/_Project/Scripts/Core/Managers/ActivityManager.cs:157-165 | a second pass changes nothing; only ready live objects are toggled, to their visibility |
| Activity.ActivityManager.CheckListVisibility | Assets/_Project/Scripts/Core/Managers/ActivityManager.cs:145-167 | each listed object ends at NextActive of its old state; original states are recorded once and never overwritten |
| Activity.ActivityManager.CheckAndUpdateVisibility | Assets/_Project/Scripts/Core/Managers/ActivityManager.cs:139-143 | both registries are culled with the same guarantees |
| Activity.ActivityManager.VisibilityTick | Assets/_Project/Scripts/Core/Managers/ActivityManager.cs:125-137 | nothing without a camera; otherwise rectangles refreshed, then the culling pass |
| Activity.ActivityManager.AddObject | Assets/_Project/Scripts/Core/Managers/ActivityManager.cs:200-208 | the registry follows the shared AddObject rule; true iff appended; stays duplicate-free |
| Activity.ActivityManager.AddObjects | Assets/_Project/Scripts/Core/Managers/ActivityManager.cs:222-237 | every non-null component ends registered, nothing else is added, duplicate-free kept |
| Activity.ActivityManager.DeleteComponentFromList | Assets/_Project/Scripts/Core/Managers/ActivityManager.cs:239-245 | every occurrence removed when the list is non-empty and the component non-null |
| Activity.ActivityManager.DeleteComponentsFromList | Assets/_Project/Scripts/Core/Managers/ActivityManager.cs:247-253 | exactly the given components removed; no-op when either list is null or empty |
| Activity.ActivityManager.ChangeComponentActivity | Assets/_Project/Scripts/Core/Managers/ActivityManager.cs:255-263 | sets the activity only of a registered live component |
| Activity.ActivityManager.ChangeComponentsActivity | Assets/_Project/Scripts/Core/Managers/ActivityManager.cs:265-276 | sets the activity of every given registered live component, nothing else |
| Activity.ActivityManager.CleanList | Assets/_Project/Scripts/Core/Managers/ActivityManager.cs:317-324 | an existing registry becomes empty; a null one stays null |
| Activity.ActivityManager.CleanAllLists | Assets/_Project/Scripts/Core/Managers/ActivityManager.cs:326-330 | both registries emptied |
| Activity.ActivityManager.OnDispose | Assets/_Project/Scripts/Core/Managers/ActivityManager.cs:332-337 | both registries null, and the getters then return empty lists |
| Activity.WithDuck | Assets/_Project/Scripts/Core/Managers/ActivityManager.cs:210-213 | exactly the registered objects with a duck controller, each as often as registered and in the registry's order (a subsequence with those multiplicities) |
| Activity.WithEnemy | Assets/_Project/Scripts/Core/Managers/ActivityManager.cs:214-217 | exactly the registered objects with an enemy controller, each as often as registered and in the registry's order (a subsequence with those multiplicities) |
| Managers.ActiveCount | Assets/_Project/Scripts/Core/Managers/GameManager.cs:75-78 | at most the length; equal iff all entries are live and active; zero iff none is |
| Managers.DeleteContainedObjectFromListAsWritten | Assets/_Project/Scripts/Core/Managers/GameManager.cs:217-226 | as written: never changes the list; true iff the element is non-null and absent |
| Managers.AsWrittenKeepsCollectedDuck | Assets/_Project/Scripts/Core/Managers/GameManager.cs:220 | a collected duck in the list stays there and the call reports false |
| Managers.DeleteContainedObjectFromList | Assets/_Project/Scripts/Core/Managers/GameManager.cs:217-226 | corrected: true iff contained, and then exactly one occurrence leaves |
| Managers.GameManager.constructor | Assets/_Project/Scripts/Core/Managers/GameManager.cs:108-119 | the activity manager given, no lists |
| Managers.GameManager.GetIndicesByCondition | Assets/_Project/Scripts/Core/Managers/GameManager.cs:22-41 | exactly the indices whose entry satisfies the condition, strictly ascending |
| Managers.GameManager.SetSpecificActive | Assets/_Project/Scripts/Core/Managers/GameManager.cs:43-57 | acts only for indices in [0, Count), through the activity manager |
| Managers.GameManager.SetActivity | Assets/_Project/Scripts/Core/Managers/GameManager.cs:65-73 | every registered live entry takes the state; positions untouched |
| Managers.GameManager.EnableAllObjects | Assets/_Project/Scripts/Core/Managers/GameManager.cs:59-63 | ducks then enemies; each registered live entry takes the state |
| Managers.GameManager.GetActiveCount | Assets/_Project/Scripts/Core/Managers/GameManager.cs:75-83 | the number of live active entries |
| Managers.GameManager.GetCollectedCount | Assets/_Project/Scripts/Core/Managers/GameManager.cs:228-232 | 0 for a null list, its length otherwise |
| Managers.GameManager.HandleCollectedDuck | Assets/_Project/Scripts/Core/Managers/GameManager.cs:132-141 | as written: the duck list is unchanged, the duck is hidden and joins the collected list at most once, the count grows when it was new |
| Managers.GameManager.HandleCollectedDuckCorrected | Assets/_Project/Scripts/Core/Managers/GameManager.cs:132-141 | with the removal corrected: the duck leaves a duplicate-free duck list, is hidden, and joins the collected list at most once |
| Managers.GameManager.DeactivateAndHide | Assets/_Project/Scripts/Core/Managers/GameManager.cs:143-148 | inactive at (-99, -99) |
| Managers.GameManager.InitLists | Assets/_Project/Scripts/Core/Managers/GameManager.cs:187-196 | every found duck and enemy is registered and in the manager's own lists |
| Managers.GameManager.OnDestroy | Assets/_Project/Scripts/Core/Managers/GameManager.cs:234-239 | registries and collected list dropped; the count is 0 |
| Fabric.Swap | Assets/_Project/Scripts/Core/Tools/ObjectFabric.cs:75-77 | the two positions exchange and all others stay |
| Fabric.Shuffled | Assets/_Project/Scripts/Core/Tools/ObjectFabric.cs:68-79 | the shuffle keeps the length |
| Fabric.ShuffledIsPermutation | Assets/_Project/Scripts/Core/Tools/ObjectFabric.cs:68-79 | for every valid draw sequence the shuffle is a permutation |
| Fabric.SwapIsPermutation | Assets/_Project/Scripts/Core/Tools/ObjectFabric.cs:75-77 | one swap is a permutation |
| Fabric.ShuffledKeepsNoDups | Assets/_Project/Scripts/Core/Tools/ObjectFabric.cs:68-79 | distinct entries stay distinct |
| Fabric.Range | Assets/_Project/Scripts/Core/Tools/ObjectFabric.cs:52-54 | the indices 0 .. n-1 in order |
| Fabric.ShuffledRange | Assets/_Project/Scripts/Core/Tools/ObjectFabric.cs:52-56 | the shuffled indices are distinct and in range |
| Fabric.ShuffleList | Assets/_Project/Scripts/Core/Tools/ObjectFabric.cs:68-79 | the array becomes the shuffle of its old contents, a permutation; length ≤ 1 unchanged |
| Fabric.ObjectFabric.constructor | Assets/_Project/Scripts/Core/Tools/ObjectFabric.cs:14-21 | prefab, amount and player recorded; no pool |
| Fabric.ObjectFabric.Instantiate | Assets/_Project/Scripts/Core/Tools/ObjectFabric.cs:34-39 | a fresh object at the spot with the activity given; a duck is wired to the player |
| Fabric.ObjectFabric.CreateCollectables | Assets/_Project/Scripts/Core/Tools/ObjectFabric.cs:25-43 | early return as in the source; otherwise the old pool destroyed and exactly amount fresh objects, the i-th at spots[i] |
| Fabric.ObjectFabric.CreateEnemies | Assets/_Project/Scripts/Core/Tools/ObjectFabric.cs:45-64 | early return as in the source; otherwise amount fresh enemies at pairwise distinct shuffled spots |
| Fabric.ObjectFabric.ShuffledIndexes | Assets/_Project/Scripts/Core/Tools/ObjectFabric.cs:52-56 | a fresh array holding the shuffled indices |
| Fabric.ObjectFabric.SetActiveObjectsPool | Assets/_Project/Scripts/Core/Tools/ObjectFabric.cs:90-100 | every live pooled object takes the state; nothing without a pool |
| Fabric.ObjectFabric.DeleteObjectsPool | Assets/_Project/Scripts/Core/Tools/ObjectFabric.cs:102-113 | every pooled object destroyed, the pool null |
| Scenes.FirstIndexOf | Assets/_Project/Scripts/Config/SceneList.cs:41-56 | the first matching index, or -1 iff none matches |
| Scenes.SceneList.constructor | Assets/_Project/Scripts/Config/SceneList.cs:14 | the assets given |
| Scenes.SceneList.ScenesNames | Assets/_Project/Scripts/Config/SceneList.cs:17-29 | SceneCount entries, entry i the name of asset i |
| Scenes.SceneList.GetScene | Assets/_Project/Scripts/Config/SceneList.cs:31-36 | null outside [0, Length), the asset's name inside |
| Scenes.SceneList.IfHasSceneReturnIndex | Assets/_Project/Scripts/Config/SceneList.cs:41-56 | true with the first match, or false with -1 |
| Scenes.SceneList.HasScene | Assets/_Project/Scripts/Config/SceneList.cs:58-65 | true iff some name matches; agrees with IfHasSceneReturnIndex |
| Player.PlayerController.constructor | Assets/_Project/Scripts/Gameplay/Player/PlayerController.cs:122-134 | inspector defaults; all jumps available; facing and scale agree; wall jump disarmed |
| Player.PlayerController.OnJump | Assets/_Project/Scripts/Gameplay/Player/PlayerController.cs:55-86 | a jump or a cut rise uses one jump only when one is left, so the counter never goes negative; a running timer gives the wall jump; a started phase, and a press or release with nothing left to use, change nothing |
| Player.PlayerController.CancelWallJump | Assets/_Project/Scripts/Gameplay/Player/PlayerController.cs:209-212 | no wall jump in progress |
| Player.PlayerController.OnMoving | Assets/_Project/Scripts/Gameplay/Player/PlayerController.cs:98-101 | the horizontal input is recorded |
| Player.PlayerController.Update | Assets/_Project/Scripts/Gameplay/Player/PlayerController.cs:136-151 | nothing while control is disabled; without a rigidbody only the ground check runs before gravity's null read stops the frame; otherwise ground reset, sliding iff airborne on a wall with input, facing agrees with input; invariants kept |
| Player.PlayerController.ApplyMovement | Assets/_Project/Scripts/Gameplay/Player/PlayerController.cs:153-156 | horizontal velocity is input × speed |
| Player.PlayerController.Gravity | Assets/_Project/Scripts/Gameplay/Player/PlayerController.cs:158-171 | falling: gravity original × multiplier and fall speed at most MaxFallSpeed; otherwise original gravity |
| Player.PlayerController.ProcessWallSlide | Assets/_Project/Scripts/Gameplay/Player/PlayerController.cs:178-189 | slides iff airborne, on a wall and with input; then the fall is at most wallSlideSpeed |
| Player.PlayerController.ProcessWallJump | Assets/_Project/Scripts/Gameplay/Player/PlayerController.cs:191-207 | as written: wall-jumping arms the timer; otherwise it counts down only while positive; a disarmed wall jump stays disarmed |
| Player.PlayerController.ProcessWallJumpCorrected | Assets/_Project/Scripts/Gameplay/Player/PlayerController.cs:191-207 | sliding arms the timer away from the wall |
| Player.PlayerController.IsOnGround | Assets/_Project/Scripts/Gameplay/Player/PlayerController.cs:214-223 | grounded restores maxJumps |
| Player.PlayerController.Flip | Assets/_Project/Scripts/Gameplay/Player/PlayerController.cs:225-229 | turns only when input opposes facing; afterwards facing agrees with non-zero input |
| Player.PlayerController.MakeFlip | Assets/_Project/Scripts/Gameplay/Player/PlayerController.cs:231-238 | facing toggles and scale.x changes sign |
| Player.PlayerController.GetKickDamage | Assets/_Project/Scripts/Gameplay/Player/PlayerController.cs:245-263 | control is disabled |
| Player.PlayerController.ControlsRestored | Assets/_Project/Scripts/Gameplay/Player/PlayerController.cs:258-263 | control is enabled again after the wait |
| Player.WallJumpNeverFires | Assets/_Project/Scripts/Gameplay/Player/PlayerController.cs:193 | as written, sliding on a wall and pressing jump gives no wall jump |
| Player.WallJumpFiresWhenCorrected | Assets/_Project/Scripts/Gameplay/Player/PlayerController.cs:193 | corrected, the same input gives the wall jump at (-5, 10), facing away |
| Gameplay.LevelFinished | Assets/_Project/Scripts/Core/Managers/GameplayManager.cs:157 | reaching the goal finishes; finishing below the goal means every duck was saved |
| Gameplay.WinAfterSetup | Assets/_Project/Scripts/Core/Managers/GameplayManager.cs:146-157 | with the goal at amount-1 the level ends iff all but one duck are saved |
| Gameplay.GameplayManager.constructor | Assets/_Project/Scripts/Core/Managers/GameplayManager.cs:11-25 | the field initialisers; goal valid, no update running |
| Gameplay.GameplayManager.UpdateAmount | Assets/_Project/Scripts/Core/Managers/GameplayManager.cs:83-90 | the duck count when available, else unchanged |
| Gameplay.GameplayManager.SetGoal | Assets/_Project/Scripts/Core/Managers/GameplayManager.cs:92-96 | a negative goal is ignored; the goal stays non-negative |
| Gameplay.GameplayManager.ShowPopUpText | Assets/_Project/Scripts/Core/Managers/GameplayManager.cs:109-114 | the text and its duration, with the message flag set |
| Gameplay.GameplayManager.Initialize | Assets/_Project/Scripts/Core/Managers/GameplayManager.cs:27-37 | goal = amount, message shown for 3 seconds |
| Gameplay.GameplayManager.HideMessage | Assets/_Project/Scripts/Core/Managers/GameplayManager.cs:135-137 | the message flag is cleared |
| Gameplay.GameplayManager.StartUpdateText | Assets/_Project/Scripts/Core/Managers/GameplayManager.cs:62-80 | shows the score when no message is up; otherwise ends at once and clears the handle |
| Gameplay.GameplayManager.ResumeUpdateText | Assets/_Project/Scripts/Core/Managers/GameplayManager.cs:71-79 | "ducks left" is shown only with goal − score > 0; the end clears the handle |
| Gameplay.GameplayManager.HandleCollected | Assets/_Project/Scripts/Core/Managers/GameplayManager.cs:45-51 | as written: starts an update only when no handle is set; when the update already ended the handle is what the engine returned for it, so a non-null one stays set |
| Gameplay.GameplayManager.HandleCollectedCorrected | Assets/_Project/Scripts/Core/Managers/GameplayManager.cs:45-51 | corrected: the handle is set exactly while an update runs |
| Gameplay.GameplayManager.WinSetup | Assets/_Project/Scripts/Core/Managers/GameplayManager.cs:146-151 | goal = amount-1, ignored when amount is 0 |
| Gameplay.GameplayManager.WinTick | Assets/_Project/Scripts/Core/Managers/GameplayManager.cs:153-168 | finished iff score == amount or score ≥ goal; then the final score is shown |
| Gameplay.UpdateStuckAfterCollectDuringMessage | Assets/_Project/Scripts/Core/Managers/GameplayManager.cs:49 | as written, after a duck collected during a message, the next duck shows nothing |
| Gameplay.UpdateShownWhenCorrected | Assets/_Project/Scripts/Core/Managers/GameplayManager.cs:49 | corrected, the next duck shows its score |
| Gameplay.UpdateShownWhenFinishedHandleIsNull | Assets/_Project/Scripts/Core/Managers/GameplayManager.cs:49 | as written, if the engine returns no handle for the finished update, the next duck shows its score |
| Collision.HandleCollisionByLayer | Assets/_Project/Scripts/Gameplay/Player/CollisionHandler.cs:6-37 | the player callback fires iff the layer is in the player mask and the player is found; then the duck callback never fires; neither fires outside both masks |
| Collision.SingleLayerMask | Assets/_Project/Scripts/Gameplay/Player/CollisionHandler.cs:15-18 | a one-layer mask holds exactly that layer |
| Collision.ShiftedBitsDisjoint | Assets/_Project/Scripts/Gameplay/Player/CollisionHandler.cs:15 | masks of two different layers share no bit |
| Collision.DisjointMasksDispatch | Assets/_Project/Scripts/Gameplay/Player/CollisionHandler.cs:18-35 | with one player layer and another duck layer, each layer reaches only its own callback |

## Left out

**Engine and effects**

- Physics integration is not modelled: forces, `MovePosition` and jump-vector trigonometry (`CalculateJumpOverObstacle`, `CalcDirection`, `CalcDirection_Adaptive`, `StepBackBeforeJump`, `Jump`, and the movement and jump inside `KeepChasing`, whose timeout is modelled). Their results (grounded, overlaps, ray hits, distances) are inputs. The kick's impulse in `GetKickDamage` is left out too.
- Audio playback, the camera shake and the pop-up fades are left out. Only the state they read or write is kept: volume, pitch and the queue.
- The camera look-down countdown in `OnMoving` is left out, because it only raises camera events.
- The duck's floating, wandering and following motion is not modelled. The model keeps which branch runs.
- Spawn points' parent transforms are not modelled.
- Unity scheduling is left out: `WaitForSeconds`, `Invoke` and nested coroutines (`yield return` of a coroutine). Coroutines are explicit steps, and the caller chooses their order.
- As a consequence, `Win`'s setup step (`WinSetup`) is not tied to the frame in which the game manager appears.
- The collision callbacks in `HandleCollisionByLayer` are represented only by which of them fired.
- The enemy's main loop in `StartPatrol` (patrol walk, then wait, or chase) is not a method: the caller runs `Move`, `KeepChasing` and `ChaseTick` in the order the loop would. The enemy's sound coroutine `PlaySoundState` only plays audio and is left out.

**Program structure**

- `SceneLoader`, the entry points and the bootstrap wiring are not part of this model.
- The activity manager's setters, `StartMonitoring` and `StopMonitoring` are not modelled. Their only effect is to start or stop the tick that `VisibilityTick` models.
- `GameManager.Get*IndicesByCondition` conditions are total functions on game objects. They cannot read mutable state.
- Component lists hold no null entries. The culling pass's skip of destroyed objects is modelled through the `destroyed` flag.
- `PlayerAttachment` calls `CleanDuckParent`, `CleanDuckChild` and `UpdateParentChildRelationship` on the duck. `DuckController` declares `CleanDuckParrent` and `UpdateParentChildRelation`, and no `CleanDuckChild`. The model reads the misspelt names as the declared ones, and `CleanDuckChild` as the child half of `CleanDuckFollower`. In the other direction, `DuckController` calls `UpdateLinq` and reads `lastfollowChild`, which the model reads as `UpdateLink` and `lastFollowChild`.
- `GetAllDucks` returns the manager's own list object. The aliasing this creates is not modelled: lists are values.

**Weaker or narrower than the source**

- DuckChain.PlayerAttachment.DetachWholeLink: proved only on a valid line, which is the only state the game builds.
- Exit.ExitController.DetachLastOne: proved only on a valid line, for the same reason.
- Fabric.ObjectFabric.CreateEnemies: requires what the source dereferences without checking: non-null spots, a prefab when amount > 0, and `amount` ≤ the number of spots. The source raises an exception instead.
- Fabric.ObjectFabric.CreateCollectables: has the same requirement, for the same reason.
- Managers.GameManager.SetSpecificActive: with a null list the source raises an exception; the model changes nothing.
- Gameplay.GameplayManager.StartUpdateText: requires an exit, which its only caller checks.
- Player.PlayerController.GetKickDamage: states only that control is disabled. Control comes back through the separate `ControlsRestored` step after 0.3 seconds. A player without a rigidbody throws at the velocity read before control is disabled; the model disables control regardless, so `Enemy.EnemyController.OnPlayerCollision` does too.
- Enemy.EnemyController.AlertTick: models what the source does. While the alert flag is set, a positive countdown is reset on every frame (`CountAfterAlwaysReset`), so it never expires. The flag clears only through `CancelAlertness`, which the chase's timeout calls (`ChaseTimesOut`). This is the source's behaviour and not a discrepancy the model corrects.
- Enemy.EnemyController.Move: runs the whole patrol walk over the observed frames in one call. Vision passes and other events that fall between its frames are not interleaved; their effect reaches the walk only through the frames given.
- Enemy.EnemyController.AwakeStartPatrol: Awake's other calls (components, layer masks, the rigidbody set-up) are engine wiring and are left out; the constructor and this step together are Awake.
- Registry.GameObject.SetActive: sets the flag only. Unity also runs the component's `OnEnable` or `OnDisable`: the duck's `OnEnable` calls `SetUpBehaviour` and restarts its behaviour coroutine, and its `OnDisable` stops it (DuckController.cs:112-116, 145-149); the enemy's are `Enemy.EnemyController.OnEnable` and `OnDisable`. The callers that toggle activity (`SetActivity`, `EnableAllObjects`, `SetSpecificActive`, the culling pass, `DeactivateAndHide`) do not run these hooks in the model; a caller composes them, as the enemy scenarios do.
- Gameplay.GameplayManager.HandleCollected: whether `StartCoroutine` returns a non-null handle for a coroutine that finished before its first yield is engine behaviour the source does not show. It is the input `finishedHandle`.
- Exit.ExitController.LoopTest: without the audio the source's loop spins in one frame; the model leaves the state where it is. The playback starts only with the audio, and the audio is set once, so this case does not arise.

## Findings

| source | as written | input that shows it | evidently intended | confidence | as-written member | corrected member |
|---|---|---|---|---|---|---|
| Assets/_Project/Scripts/Gameplay/Enemy/EnemyController.cs:129-141 | `StartPatrol` starts the vision coroutine before setting `_isPatrolling = true`. The vision pass can switch the enemy to chasing first, and the flag is then set on top. At spawn the `OnEnable` after Awake resets the flags, but `OnDisable` clears `_mainCoroutine`, so a later `OnEnable` restarts `StartPatrol` after its reset. | A culled enemy re-enabled with the player in its first vision ray. | The patrol flag is set before the first vision pass, so chasing and patrolling stay exclusive. | medium (not executed) | Enemy.StartPatrolSeesPlayerOnReEnable | Enemy.StartPatrolCorrectedSeesPlayerOnReEnable |
| Assets/_Project/Scripts/Core/Managers/GameManager.cs:220 | `DeleteContainedObjectFromList` removes only when the element is *not* in the list, so it never removes anything. A collected duck stays in the game manager's duck list (`Managers.GameManager.HandleCollectedDuck`). | `(d, [d])` returns false and leaves `[d]`. | Remove the element when it is contained, so the collected duck leaves the duck list (`Managers.GameManager.HandleCollectedDuckCorrected`). | high (not executed) | Managers.AsWrittenKeepsCollectedDuck | Managers.DeleteContainedObjectFromList |
| Assets/_Project/Scripts/Gameplay/Player/PlayerController.cs:193 | `ProcessWallJump` arms the wall-jump timer only while `isWallJumping`, which is itself set only when the timer is already positive. The timer therefore never becomes positive, and the wall jump never fires. | Slide down a wall while holding a direction, then press jump. | Arm the timer while `isWallSliding`, which `Awake` references and nothing else reads. | high (not executed) | Player.WallJumpNeverFires | Player.WallJumpFiresWhenCorrected |
| Assets/_Project/Scripts/Core/Managers/GameplayManager.cs:49 | `_event ??= StartCoroutine(UpdateTextUI())`: when a message is up, the coroutine ends during `StartCoroutine` and sets `_event = null`, then the assignment stores the finished handle. `_event` then stays set forever, and no later collection updates the text. | A duck collected while the start message shows; then the message ends; then a second duck is collected. This assumes the engine returns a non-null handle for a coroutine that ended before its first yield (`finishedHandle`); with a null one the text updates (`Gameplay.UpdateShownWhenFinishedHandleIsNull`). | The handle is set exactly while an update runs. | low (not executed; depends on the engine's handle) | Gameplay.UpdateStuckAfterCollectDuringMessage | Gameplay.UpdateShownWhenCorrected |
