# Minigame collection: verified model of the core game logic

This project models, in Dafny, the stateful logic of a Unity collection of
minigames with a shared menu. Five components are modelled, each as a class
whose fields the component updates in place:

- **Lap checkpoints** (racing game, `Game11.CarMovement`, file
  `game11_car.dfy`). The car must pass the trigger colliders Point1 … Point6
  in order. `nextPoint` names the checkpoint it must touch next. Touching
  Point6 when it is due wraps the counter to 1 and resets the lap timer.
  A ghost history of the contacts since the last reset lets the model prove
  that a reset only follows a complete, in-order lap.
- **Main menu** (`MainMenu.GameManagerMenu`, file `game_manager_menu.dfy`).
  It covers the panel navigation, the game selector and the credits pages.
  Each of these is an array of "active" flags. It also covers the volume
  control (value, label, two arrows) and the fullscreen toggle with its exit
  button and icon.
- **Persistence** (`Saving.SaveManager`, file `save_manager.dfy`). It holds
  the options (language, first-run flag, volume, fullscreen) and the twelve
  minigame scores. The desktop build writes each record whole to a save
  file, modelled as an optional record. The browser build keeps entries in
  the platform preference store, modelled as a map from key to value.
- **Barrel-game player** (`Game07.MarioMovement`, file `game07_mario.dfy`).
  A flag machine over `isDead`, `inLadders`, `climbingLadders` and
  `malletMode`. Raycast results and key presses are per-frame inputs. The
  mallet timer and the stages of the death sequence are explicit events.
- **Shooter player** (`Game03.PlayerController`, file `game03_player.dfy`).
  Horizontal input is gated at the screen bounds ±7. A fire cooldown of one
  second is kept in `nextFire`. An enemy-bullet hit costs one health.

The objects that the players switch on and off (`SetActive`) are the
`Engine.GameObject` class in `engine.dfy`. The menu's groups of panels,
game pages and credit pages are arrays of active flags, one per object.

Each class method is proved against pure functions of the old state and
the inputs (`OnTrigger`, `ArrowStep`, `VolumeStep`, `UpdateStep`,
`GatedInput`, `NextFire`, `ShotTimes`, …). The properties are then proved
about those functions, as their own `ensures` clauses and as lemmas:

- progress and reset of the lap counter;
- left/right arrow presses undoing each other;
- the volume control staying consistent;
- the option round trips through both kinds of storage;
- the jump and climb guards and mutual exclusion of the animation flags;
- spacing of successive shots.

Five engine notifications are not modelled as calls. They become
out-parameters or counters instead:

- the lap-timer reset becomes a counter;
- the game manager's score and win notifications become the `scored` and
  `won` results;
- the death notification becomes `died`;
- the lost health becomes `healthLost`.

The browser build's score saver reads the preference store but never
writes to it. The model keeps this behaviour as written: `SaveScores` on
the browser build changes nothing. `BrowserScoresNotRestored` states the
consequence: on the browser build, a save followed by a load gives back
what the store held before, whatever scores were saved.

## Model

| member | source | states |
|---|---|---|
| Game11.Checkpoint | Assets/Game11/Scripts/CarMovement.cs:72-97 | a collider name is a checkpoint 1…6 exactly when it is one of Point1…Point6, and the number is its position in the lap |
| Game11.OnTrigger | Assets/Game11/Scripts/CarMovement.cs:70-103 | the due checkpoint K<6 advances the counter to K+1; Point6 when due wraps it to 1 and resets the timer; any other contact changes nothing; only the completed lap resets the timer; the counter stays in 1…6 |
| Game11.Replay | Assets/Game11/Scripts/CarMovement.cs:70-103 | after any sequence of contacts the counter stays in 1…6 |
| Game11.ProgressWitness | Assets/Game11/Scripts/CarMovement.cs:70-103 | without a reset, checkpoints 1 … nextPoint-1 have been touched in order since the start of the lap |
| Game11.ProgressMaximal | Assets/Game11/Scripts/CarMovement.cs:70-103 | without a reset, no longer in-order run of checkpoints has been touched: the counter is exactly the progress made |
| Game11.ResetAfterFullLap | Assets/Game11/Scripts/CarMovement.cs:97-102 | the timer is reset only after Point1 … Point6 were all touched in order since the last reset or enable |
| Game11.CarMovement.constructor | Assets/Game11/Scripts/CarMovement.cs:20 | the counter starts at checkpoint 1 |
| Game11.CarMovement.OnEnable | Assets/Game11/Scripts/CarMovement.cs:36-39 | enabling the car restarts the lap at checkpoint 1 |
| Game11.CarMovement.OnTriggerEnter2D | Assets/Game11/Scripts/CarMovement.cs:70-103 | the counter follows OnTrigger and stays in 1…6; the timer is reset exactly on a completed lap, and then a full in-order lap lies behind it |
| Saving.FlagToInt | Assets/Menu/Scripts/SaveManager.cs:145 | the first-run flag is stored as 1 when set and 0 otherwise |
| Saving.PrefsOptions | Assets/Menu/Scripts/SaveManager.cs:108-117 | browser load: each missing entry gives its default ("EN", false, 100) and the fullscreen flag keeps its current value |
| Saving.WithOptions | Assets/Menu/Scripts/SaveManager.cs:143-152 | browser save writes the language as a string entry, the first-time flag as 1 or 0 and the volume as integer entries, and leaves every other entry of the store as it was |
| Saving.PrefsOptionsRoundTrip | Assets/Menu/Scripts/SaveManager.cs:108-152 | browser save then load gives back language, first-run flag (through 1/0) and volume; fullscreen is neither saved nor loaded |
| Saving.PrefsScores | Assets/Menu/Scripts/SaveManager.cs:180-193 | browser load: each of the fourteen scores, both pair elements included, is the integer stored under its key, and 0 when the key is missing or holds a string |
| Saving.PrefsScoresMissing | Assets/Menu/Scripts/SaveManager.cs:180-193 | browser load with none of the score entries present gives every score 0, both pair elements included |
| Saving.BrowserScoresNotRestored | Assets/Menu/Scripts/SaveManager.cs:176-247 | on the browser build, whatever scores are held when saving, a save then a load gives back the scores the store held before, and the store is unchanged |
| Saving.SaveManager.constructor | Assets/Menu/Scripts/SaveManager.cs:16-78 | a fresh manager has language "EN", first-run flag false, volume 100, fullscreen false and every score 0 |
| Saving.SaveManager.Awake | Assets/Menu/Scripts/SaveManager.cs:80-101 | the single manager loads the options and then the scores, without touching the storage |
| Saving.SaveManager.LoadOptions | Assets/Menu/Scripts/SaveManager.cs:106-136 | browser: the options read from the store; desktop: all four fields from the file if it exists, otherwise all unchanged |
| Saving.SaveManager.SaveOptions | Assets/Menu/Scripts/SaveManager.cs:141-171 | browser: the three entries are written; desktop: the file holds the four option fields |
| Saving.SaveManager.LoadScores | Assets/Menu/Scripts/SaveManager.cs:176-223 | browser: each score from its entry (0 when missing); desktop: all twelve from the file if it exists, otherwise unchanged |
| Saving.SaveManager.SaveScores | Assets/Menu/Scripts/SaveManager.cs:228-275 | browser: the store is left unchanged; desktop: the file holds all twelve scores |
| Saving.SaveManager.DeleteScores | Assets/Menu/Scripts/SaveManager.cs:280-296 | every score, both pair elements included, becomes 0 and is saved; the option fields are not touched |
| Saving.SaveThenLoadOptions | Assets/Menu/Scripts/SaveManager.cs:106-171 | saving then loading the options restores all four option fields, on both builds |
| Saving.SaveThenLoadScores | Assets/Menu/Scripts/SaveManager.cs:176-275 | desktop: saving then loading restores all twelve scores; browser: the loaded scores are whatever the store held before |
| Saving.DeleteThenLoadScores | Assets/Menu/Scripts/SaveManager.cs:176-296 | deleting the scores survives a reload on the desktop build; on the browser build the reload brings back the stored scores |
| MainMenu.Percent | Assets/Menu/Scripts/GameManagerMenu.cs:186 | the volume label ends in '%' and is never the "OFF" label |
| MainMenu.ArrowStep | Assets/Menu/Scripts/GameManagerMenu.cs:133-153 | the selected game stays in [0, count); left from 0 wraps to count-1, right from count-1 wraps to 0 (steps of ∓1 modulo count) |
| MainMenu.ArrowsCancel | Assets/Menu/Scripts/GameManagerMenu.cs:137-152 | a left press followed by a right press, or the reverse, returns to the original game |
| MainMenu.CreditsStep | Assets/Menu/Scripts/GameManagerMenu.cs:279-290 | the credits page cycles 0→1→2→0, and wraps exactly from page 2 |
| MainMenu.VolumeStep | Assets/Menu/Scripts/GameManagerMenu.cs:205-238 | a press changes the volume by exactly -5 or +5; the label reads "OFF" exactly when a left press leaves the volume at 0 or below, else "N%"; a left press re-shows the right arrow and hides the left one at 0; a right press re-shows the left arrow and hides the right one at 100 |
| MainMenu.CheckedVolume | Assets/Menu/Scripts/GameManagerMenu.cs:178-199 | the control shows the saved volume, "OFF" when it is 0 or below, and hides the arrow at the end of the range the volume has reached |
| MainMenu.CheckedVolumeConsistent | Assets/Menu/Scripts/GameManagerMenu.cs:178-199 | a saved volume that is a multiple of 5 in [0, 100] gives a consistent control: each arrow shown exactly when pressing it keeps the volume in range |
| MainMenu.VolumeStepConsistent | Assets/Menu/Scripts/GameManagerMenu.cs:205-238 | pressing an arrow that is shown keeps the control consistent: the volume stays in [0, 100] |
| MainMenu.ResolutionValues | Assets/Menu/Scripts/GameManagerMenu.cs:359-380 | browser: exit button and resolution icon hidden; elsewhere the exit button is shown exactly in fullscreen and the icon offers the other mode |
| MainMenu.GameManagerMenu.constructor | Assets/Menu/Scripts/GameManagerMenu.cs:18-74 | the menu starts on the first game and the first credits page |
| MainMenu.GameManagerMenu.Start | Assets/Menu/Scripts/GameManagerMenu.cs:83-95 | shows the saved volume and the resolution controls, and opens only the language panel when the language was never chosen |
| MainMenu.GameManagerMenu.OpenPanel | Assets/Menu/Scripts/GameManagerMenu.cs:118-126 | afterwards the chosen panel is active and every other panel inactive |
| MainMenu.GameManagerMenu.ArrowGames | Assets/Menu/Scripts/GameManagerMenu.cs:133-161 | the selection follows ArrowStep and exactly one game panel, the selected one, is active |
| MainMenu.GameManagerMenu.CheckVolume | Assets/Menu/Scripts/GameManagerMenu.cs:178-199 | the volume control becomes CheckedVolume of the saved volume |
| MainMenu.GameManagerMenu.VolumeManager | Assets/Menu/Scripts/GameManagerMenu.cs:205-238 | the volume control becomes VolumeStep of its old state |
| MainMenu.GameManagerMenu.LoadOptions | Assets/Menu/Scripts/GameManagerMenu.cs:243-246 | the menu takes the saved volume |
| MainMenu.GameManagerMenu.SaveOptions | Assets/Menu/Scripts/GameManagerMenu.cs:251-255 | the saved options gain the menu's volume, the other three fields unchanged, and are written to the build's storage |
| MainMenu.GameManagerMenu.ClearHighScores | Assets/Menu/Scripts/GameManagerMenu.cs:269-272 | every score becomes 0 and is saved |
| MainMenu.GameManagerMenu.ArrowCredits | Assets/Menu/Scripts/GameManagerMenu.cs:277-293 | the page follows CreditsStep; exactly one credits page is active; the wrap also opens only the main panel, and other presses leave the panels alone |
| MainMenu.GameManagerMenu.ChangeResolution | Assets/Menu/Scripts/GameManagerMenu.cs:337-354 | flips the saved fullscreen flag, brings the exit button and icon up to date, and saves the options |
| MainMenu.GameManagerMenu.UpdateResolutionValues | Assets/Menu/Scripts/GameManagerMenu.cs:359-380 | the exit button and icon become ResolutionValues of the saved fullscreen flag |
| Game07.AnimationFlags | Assets/Game07/Scripts/MarioMovement.cs:216-222 | walking and jumping are never both set, nor the two climbing flags; neither walking nor jumping while climbing; exactly one climbing flag while climbing and none otherwise |
| Game07.CanJump | Assets/Game07/Scripts/MarioMovement.cs:229 | a jump needs W and the ground, and on a ladder also the mallet |
| Game07.UpdateStep | Assets/Game07/Scripts/MarioMovement.cs:146-181 | paused or dead: nothing changes; a jump fires exactly when a live, non-climbing player passes the jump guard; climbing starts exactly when a live player without the mallet presses W at a ladder or S above one; a climber stops exactly at the ladder top; the facing changes only while walking |
| Game07.MarioMovement.constructor | Assets/Game07/Scripts/MarioMovement.cs:25-57 | the player starts alive, off the ladders and without the mallet |
| Game07.MarioMovement.Update | Assets/Game07/Scripts/MarioMovement.cs:146-181 | the frame follows UpdateStep; the animator flags are set only in a live, running frame; starting to climb makes the body kinematic and leaving the ladder makes it dynamic, otherwise the body type is kept |
| Game07.MarioMovement.Movement | Assets/Game07/Scripts/MarioMovement.cs:187-200 | the player faces the direction of a non-zero input, and keeps its facing otherwise |
| Game07.MarioMovement.Jump | Assets/Game07/Scripts/MarioMovement.cs:227-235 | a jump fires only on W, on the ground, and off the ladders unless the mallet is held |
| Game07.MarioMovement.UseLadders | Assets/Game07/Scripts/MarioMovement.cs:240-257 | W at a ladder starts climbing; otherwise S above a descendable ladder starts it; either makes the body kinematic |
| Game07.MarioMovement.LeaveLadders | Assets/Game07/Scripts/MarioMovement.cs:262-266 | leaving the ladder clears the climbing flag and makes the body dynamic |
| Game07.MarioMovement.Animation | Assets/Game07/Scripts/MarioMovement.cs:216-222 | the animator flags become AnimationFlags of the frame |
| Game07.MarioMovement.MalletCollider | Assets/Game07/Scripts/MarioMovement.cs:272-285 | exactly one mallet collider is active: the top one for 1, the side one otherwise |
| Game07.MarioMovement.ResetScene | Assets/Game07/Scripts/MarioMovement.cs:290-306 | isDead, inLadders and climbingLadders all become false, the collider is enabled and the body dynamic; the mallet flag is kept |
| Game07.MarioMovement.StopAnimation | Assets/Game07/Scripts/MarioMovement.cs:311-317 | all four movement animation flags are cleared |
| Game07.MarioMovement.OnCollisionEnter2D | Assets/Game07/Scripts/MarioMovement.cs:319-333 | a barrel or flame kills the player exactly when the mallet is not held: dead, collider disabled; otherwise nothing changes |
| Game07.MarioMovement.OnTriggerEnter2D | Assets/Game07/Scripts/MarioMovement.cs:335-374 | a mallet pickup deactivates it and starts the mallet mode; a jump area scores and the win collider wins, each only when not climbing, in the tag-then-name order of the checks |
| Game07.MarioMovement.OnTriggerStay2D | Assets/Game07/Scripts/MarioMovement.cs:376-385 | staying at a ladder sets inLadders; other objects change nothing |
| Game07.MarioMovement.OnTriggerExit2D | Assets/Game07/Scripts/MarioMovement.cs:387-395 | leaving a ladder clears inLadders; other objects change nothing |
| Game07.MarioMovement.MalletStart | Assets/Game07/Scripts/MarioMovement.cs:401-404 | picking up the mallet sets the mallet mode |
| Game07.MarioMovement.MalletExpire | Assets/Game07/Scripts/MarioMovement.cs:406-413 | when the mallet wears off, the mallet mode is false and both mallet colliders are inactive |
| Game07.MarioMovement.Dying | Assets/Game07/Scripts/MarioMovement.cs:419-430 | the death sequence starts: dead, collider disabled, body kinematic, animation stopped |
| Game07.MarioMovement.DyingAnimation | Assets/Game07/Scripts/MarioMovement.cs:432-434 | the dying animation starts |
| Game07.MarioMovement.DeadAnimation | Assets/Game07/Scripts/MarioMovement.cs:436-439 | the dead animation replaces the dying one |
| Game07.DeadFrameFrozen | Assets/Game07/Scripts/MarioMovement.cs:151 | while dead, a frame fires no jump and changes none of the flags, the facing, the animation or the body type |
| Game07.MalletProtects | Assets/Game07/Scripts/MarioMovement.cs:326-329 | a barrel or flame while the mallet is held changes nothing |
| Game03.GatedInput | Assets/Game03/Scripts/PlayerController.cs:44-52 | left of the minimum bound a leftward input is zeroed and right of the maximum a rightward one; within the bounds, or moving inward, the input passes unchanged |
| Game03.NextFire | Assets/Game03/Scripts/PlayerController.cs:58-60 | the cooldown never decreases over any sequence of frames |
| Game03.ShotTimes | Assets/Game03/Scripts/PlayerController.cs:56-69 | every shot comes after the starting cooldown, successive shots are more than the cadency (1 s) apart, and the cooldown ends one cadency after the last shot |
| Game03.PlayerController.constructor | Assets/Game03/Scripts/PlayerController.cs:36 | the ship may fire at once (nextFire 0) |
| Game03.PlayerController.Update | Assets/Game03/Scripts/PlayerController.cs:38-75 | the move input is GatedInput; a shot fires exactly when W is held and the time is past nextFire, which then becomes time + cadency; nextFire never decreases; the shot activates the pooled bullet |
| Game03.PlayerController.OnTriggerEnter2D | Assets/Game03/Scripts/PlayerController.cs:77-86 | an enemy bullet is deactivated and costs exactly one health; anything else changes nothing |

## Left out

- Physics, raycasts and motion: forces, velocities, `Translate`/`Rotate`, positions and the car's steering. Raycast results (grounded, ladder top, can descend) are per-frame inputs. One grounded value serves the whole frame, for both the jump guard and the animation.
- Coroutine timing: the mallet's seven seconds and the delays of the death sequence. Each stage is a separate event the caller may fire in any order, so a pending mallet expiry or death stage is not tied to its start.
- Sound, the animator's `ActivateMallet`/`IsDying`/`IsDie` effects beyond the flag values, `AudioListener.volume`, `Screen.SetResolution`, sprites beyond which of the two is shown, scene loading (`LoadGame`, `LoadRandomGame`), `QuitGame`, `OpenURL` and `ChangeLanguage`. These are engine or foreign calls with no state of the model.
- Pausing (the Cancel button in each component) and the game managers' own state: `GameManager7`, `GameManager3`, `GameManager11`, `Timer11` and `ObjectPooler` are not part of this model. Their calls are the out-parameters and counters named above.
- Singleton set-up and delegate subscription (`FindGameObjectsWithTag`, `DontDestroyOnLoad`, `OnEnable`/`OnDisable` of the player). Only the loads of `SaveManager.Awake` are modelled.
- Byte formats of the save files and of the preference store. A file is an optional record, absent until written. A file that does not deserialise to the expected record is not modelled.
- Saving.SaveManager: the twelve public score fields, two of them two-element arrays, are held as one `ScoreData` record. Element-wise writes into the pair arrays are not modelled, and neither is the sharing of those arrays with the loaded record.
- MainMenu.GameManagerMenu: the panel, game-page and credit-page groups are taken to hold distinct objects. An object listed twice, or in two of the groups, is not modelled.
- MainMenu.GameManagerMenu.OpenPanel: the panel is given by its index in the menu's panel array. A panel object outside that array is not modelled.
- MainMenu.GameManagerMenu.constructor: the initial volume, label and button state come from the scene. The model starts with both arrows, the exit button and the icon shown.
- Game03.PlayerController.Update: the pooled bullet is an argument. It is activated when a shot fires, and its position and rotation are not modelled.
- Game07.MarioMovement.OnTriggerEnter2D: the ladder reference kept for snapping to the ladder is not modelled.
- The sideways car and paddle players of games 1 and 2 (`Player.cs`, `Paddle.cs`) keep no state of their own. Their grounded-jump and facing guards are those of the barrel-game player.
- Float behaviour of positions and `Time.time`: reals are used. Volumes and scores are unbounded integers, since the code keeps them well inside 32 bits.
