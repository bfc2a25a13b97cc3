# CrewLink proximity-voice core, modelled in Dafny

CrewLink is proximity voice chat for Among Us. The main process polls the game's memory.
Each tick it turns what it reads into a snapshot of the game:
- the phase (LOBBY, TASKS, DISCUSSION, MENU);
- the lobby code, the map and the door mask;
- the communications-sabotage flag and the camera mask;
- the players.

The renderer turns each snapshot into per-peer audio settings:
- a gain of 0, 0.5 (through a window) or 1;
- a camera bleed;
- a muffled or main route;
- a clamped panner position.

A voice-activity detector drives the speaking indicator.

This project models that core and proves its properties.

| file | module | models |
|---|---|---|
| JsNumber.dfy | JsNumber | JavaScript numbers. `undefined`, NaN and exact reals give `===`, truthiness, `Math.min`, ToInt32 and shift counts. Masks are 32 booleans. |
| GameModel.dfy | GameModel | The snapshot, player and offset records, the phases and the map constants. |
| ForeignMemory.dfy | ForeignMemory | `readMemory`, `offsetAddress`, `readString` and `readDictionary` over an uninterpreted memory. |
| LobbyCode.dfy | LobbyCode | `intToGameCode`. |
| PhaseMachine.dfy | PhaseMachine | The phase classifier of `loop()` as a pure transition function, and its properties over runs. |
| GameReader.dfy | GameReader | The reads of one tick: players, doors, systems, cameras and meeting HUD. Also the `GameReader` class, whose `Loop` method updates its fields in place. |
| Ship.dfy | ShipGeometry | `Ship.parse` (imperative loops proved against a specification), and `blocked`, `intersects` and `orientation` as functions. |
| Voice.dfy | Voice | `calculateVoiceAudio` (a method, proved against the decision function `Decide`), `distSq`, `myPlayer`, `otherPlayers` and the other-dead effect. |
| Vad.dfy | VoiceActivity | The `VAD` class: its constructor, `init` and `monitor`. |

Inputs that the model treats as parameters:
- Memory is a parameter with three parts:
  - `raw`, for the typed reads;
  - `record`, for the player record decoded by structron;
  - `text`, for the decoded bytes.
- The process handle is a parameter: `Loop` takes the module base, or None when no game is attached.
- The state-diff library is a predicate parameter.
- `Math.sqrt` is a function parameter. Where a property needs it, it is constrained to map [0, 9) into [0, 3).
- The three maps' geometry is a parameter.

Behaviours of the code worth noting:
- Outside the lobby, a player in a vent is silent, whatever the listener's own vent state.
- Communications sabotage silences everyone for a living listener in TASKS. There is no exemption for impostors. A dead listener is not affected.
- Camera bleed ramps to 1, not to the camera's computed gain.
- `close()` only drops the process handle; the classifier state is kept.

## Model

| member | source | states |
|---|---|---|
| JsNumber.MathMin | src/main/GameReader.ts:111 | `Math.min` is a number exactly when both arguments are, and is then the smaller of the two. |
| JsNumber.ToInt32 | src/main/GameReader.ts:161 | `x & 0xffffffff` and `x \| 0` give a signed 32-bit value congruent to the truncation modulo 2^32. |
| JsNumber.ShiftCount | src/main/GameReader.ts:115 | The count of a shift is below 32 and congruent to the truncated count modulo 32. NaN and `undefined` shift by 0. |
| JsNumber.AllOnesNonZero | src/main/GameReader.ts:155 | The all-cameras mask -1 is nonzero. |
| JsNumber.OneBitNonZero | src/main/GameReader.ts:157 | A single-camera mask `1 << k` is nonzero. |
| JsNumber.ShiftCountOfIndex | src/main/GameReader.ts:112-115 | A loop index below 32 shifts to its own bit. |
| ForeignMemory.Resolve | src/main/GameReader.ts:278-287 | `offsetAddress` as a value: the walk from `base & 0xffffffff` over every offset but the last, and that last offset. Its properties are stated by `WalkReadsLength`, `WalkReadsLinked`, `WalkReadsStop` and `ChainLaw`; `OffsetAddress` is its loop. |
| ForeignMemory.OffsetAddress | src/main/GameReader.ts:278-287 | The pointer-walk loop returns exactly the resolution `Resolve` specifies. |
| ForeignMemory.WalkReadsLength | src/main/GameReader.ts:280-283 | A walk makes at most one dereference per offset before the last, and the first is at the start plus the first offset. |
| ForeignMemory.WalkReadsLinked | src/main/GameReader.ts:280-283 | Each later dereference is at the previous value read plus the next offset. |
| ForeignMemory.WalkReadsStop | src/main/GameReader.ts:280-286 | A walk continues only past non-null values and stops early only at a null. It ends at the last value read. |
| ForeignMemory.ChainLaw | src/main/GameReader.ts:278-287 | Chain resolution starts at `base & 0xffffffff`, never dereferences the final offset, stops at the first null and ends at the last value read. `last` is the final offset, or 0 for an empty list. |
| ForeignMemory.ReadMemory | src/main/GameReader.ts:268-277 | Base 0 or a null resolution gives the default. Any other result is the raw read at the resolved address plus the last offset. |
| ForeignMemory.ReadMemoryReads | src/main/GameReader.ts:268-277 | No raw read for base 0. A null chain issues only the chain's reads and gives the default. Otherwise exactly one more read, at address plus last, whose value is returned. |
| ForeignMemory.NullInChain | src/main/GameReader.ts:283 | A null anywhere in the chain ends the walk there, and the read returns the caller's default. |
| ForeignMemory.DictionaryLength | src/main/GameReader.ts:298 | The loop bound `Math.min(count, maxLen)` is a number no larger than maxLen. |
| ForeignMemory.Iterations | src/main/GameReader.ts:299 | The loop runs ceil(bound) times for a positive bound, never for a non-positive bound or NaN. |
| ForeignMemory.IterationsExact | src/main/GameReader.ts:299 | The loop condition `i < bound` holds exactly for the counters below the iteration count. |
| ForeignMemory.EntrySlots | src/main/GameReader.ts:299-302 | Entry i's key slot is entries + 0x10 + (4i + 2)·4, and its value slot is 4 bytes further on. |
| ForeignMemory.ReadDictionary | src/main/GameReader.ts:296-303 | The visitor is called max(0, min(count, maxLen)) times, on consecutive slots 16 bytes apart, in order. |
| ForeignMemory.StripNul | src/main/GameReader.ts:294 | `replace(/\0/g, '')`: the result has no NUL. The lemmas `StripNulLaw`, `StripNulAppend` and `StripNulKeepsClean` state which characters it keeps and in what order. |
| ForeignMemory.StripNulLaw | src/main/GameReader.ts:294 | Removing NULs removes exactly the NUL characters and keeps the count of every other character. |
| ForeignMemory.StripNulAppend | src/main/GameReader.ts:294 | Removing NULs distributes over concatenation and keeps a single character exactly when it is not NUL, so the kept characters stay in order. |
| ForeignMemory.StripNulKeepsClean | src/main/GameReader.ts:294 | Text without NULs is unchanged. |
| ForeignMemory.ReadString | src/main/GameReader.ts:288-295 | Address 0 gives the empty string. No result contains a NUL. |
| ForeignMemory.ReadStringLaw | src/main/GameReader.ts:289-294 | At a nonzero address, the string is the text of the `length << 1` bytes after the 12-byte header with its NULs removed. For any split of that text, it is the two stripped parts in order, and it keeps the count of every other character. |
| LobbyCode.Letter | src/main/GameReader.ts:265 | An index in range gives that letter. An index off the alphabet concatenates as "undefined". |
| LobbyCode.LowGroup | src/main/GameReader.ts:263 | `code & 0x3FF` is in [0, 1024). |
| LobbyCode.HighGroup | src/main/GameReader.ts:264 | `(code >> 10) & 0xFFFFF` is in [0, 2^20). |
| LobbyCode.IntToGameCode | src/main/GameReader.ts:259-266 | Code 0 gives "QQQQQQ". Any other code gives the letter of x mod 26, the letter (or "undefined") at x div 26, then the four base-26 digits of y as letters, least significant first, where x = `code & 0x3FF` and y = `(code >> 10) & 0xFFFFF`. |
| LobbyCode.DigitOfNumber | src/main/GameReader.ts:265 | `(q + f) % 26 \| 0` for whole q and fraction f is q mod 26. |
| LobbyCode.SplitQuotient | src/main/GameReader.ts:265 | A number division y / d splits into the integer quotient plus a fraction below one. |
| LobbyCode.NumberDigit | src/main/GameReader.ts:265 | After dividing by 26 k times, `% 26 \| 0` yields the k-th base-26 digit. |
| LobbyCode.DigitOfQuotient | src/main/GameReader.ts:265 | NumberDigit holds for the quotient the repeated `y /= 26` computes. |
| LobbyCode.FourLetters | src/main/GameReader.ts:265 | Four in-range letters concatenate to the four-character string. |
| LobbyCode.HighLetters | src/main/GameReader.ts:264-265 | The last four letters are the base-26 digits of the high group, least significant first. |
| LobbyCode.LowLetters | src/main/GameReader.ts:263-265 | The first two letters are x mod 26 and the letter (or "undefined") at x div 26. |
| LobbyCode.CodeLettersDigits | src/main/GameReader.ts:263-265 | The six letters in order, as base-26 digits of the two groups. |
| LobbyCode.GameCodeWellFormed | src/main/GameReader.ts:259-266 | A nonzero code gives six alphabet letters exactly when its low group is below 676. |
| PhaseMachine.Step | src/main/GameReader.ts:85-207 | One tick of the classifier: phase switch, exile latch, MENU→LOBBY debounce and lobby-code update. Its behaviour is stated by `PhaseTableLaw`, `ExileLatch`, `LatchSticky`, `Countdown`, `HoldsAtMost`, `DebounceReleases`, `TwentyTickHold`, `LobbyCodeRule` and `PhasesSplit`. |
| PhaseMachine.PhaseTableLaw | src/main/GameReader.ts:85-103 | Code 0 is MENU and codes 1 and 3 are LOBBY, or MENU while the debounce holds, all clearing the latch. When the previous phase is not MENU, any other code is LOBBY when latched, DISCUSSION when the HUD state is below 4, else TASKS (or LOBBY after an ending exile). Never UNKNOWN. |
| PhaseMachine.ExileLatch | src/main/GameReader.ts:185-190 | Right after DISCUSSION, a TASKS reading sets the latch and reports LOBBY exactly when no impostor is left or they match the crew. |
| PhaseMachine.LatchSticky | src/main/GameReader.ts:95-97 | Once set, the latch reports LOBBY and stays set through every tick whose code is not 0, 1 or 3. |
| PhaseMachine.Countdown | src/main/GameReader.ts:191-198 | The countdown stays in [0, 20]. A held tick lowers it by one, and any other tick resets it. The pointer is always recorded. |
| PhaseMachine.HoldsAtMost | src/main/GameReader.ts:191-197 | A run of held ticks is no longer than the countdown, reports MENU throughout and lowers the countdown by its length. |
| PhaseMachine.DebounceReleases | src/main/GameReader.ts:191-198 | A stale lobby reading after MENU is held for as many ticks as the countdown shows, then LOBBY is reported. |
| PhaseMachine.TwentyTickHold | src/main/GameReader.ts:191-197 | From a fresh countdown of 20, exactly 20 ticks report MENU and the 21st reports LOBBY. |
| PhaseMachine.LobbyCodeRule | src/main/GameReader.ts:200-207 | In LOBBY a truthy code is decoded and a zero code keeps the text. TASKS and DISCUSSION keep it. MENU shows "MENU". |
| PhaseMachine.PhasesSplit | src/main/GameReader.ts:228 | A run's phases split at any tick into those of its two parts, the second starting from the state the first leaves. |
| GameReader.ParsePlayer | src/main/GameReader.ts:305-337 | `parsePlayer`: a player from its record and its object's flags and position chains. Its fields are stated by `ParsePlayerLaw`. |
| GameReader.ParsePlayerLaw | src/main/GameReader.ts:305-337 | Ptr, id and object pointer are copied. Dead, disconnected and impostor mean > 0. The name is the string at the record's name pointer and has no NUL. A player is local exactly when its flag (an Int) is not exactly 0. x and y are read through the local chains for a local player and the remote chains otherwise. The player is in a vent exactly when the vent byte is > 0. A null object pointer counts as local, with no position and not in a vent. |
| GameReader.PlayerListStep | src/main/GameReader.ts:170-175 | n + 1 players extend n players by the player at slot n. |
| GameReader.CountStep | src/main/GameReader.ts:177-182 | One more player adds to the impostor or crew count exactly when it is counted. |
| GameReader.CountsPartition | src/main/GameReader.ts:168-183 | Impostors, crew and skipped add up to the number of players. Both counts are 0 when nobody counts. |
| GameReader.DecodedCount | src/main/GameReader.ts:170 | At most 10 players are decoded. |
| GameReader.ReadPlayer | src/main/GameReader.ts:171-173 | The player at a slot is the record reached through the player chain. |
| GameReader.ReadPlayers | src/main/GameReader.ts:161-183 | The loop decodes the first min(count, 10) players in slot order and counts the living impostors and crew. |
| GameReader.Tally | src/main/GameReader.ts:177-182 | Unnamed, exiled, dead or disconnected players are skipped. Any other is an impostor or crew. |
| GameReader.AllDoorsCount | src/main/GameReader.ts:111 | The door count is capped at 32. |
| GameReader.PlainDoorStep | src/main/GameReader.ts:113-116 | Clearing bit n for a closed door n extends the mask from n doors to n + 1. |
| GameReader.ReadPlainDoors | src/main/GameReader.ts:109-117 | Starting from -1, the loop clears bit i for each of the first min(count, 32) doors that reads closed. |
| GameReader.ManualDoorsLaw | src/main/GameReader.ts:134-143 | A bit survives exactly when it was set and is not the bit of a closed upper door (`1 << count`) or lower door (`1 << (1 + count)`). |
| GameReader.VisitSystemLaw | src/main/GameReader.ts:122-147 | One entry only clears the two manual-door bits. A non-door entry leaves the mask alone, and a non-comms entry leaves the flag alone. |
| GameReader.VisitAllLaw | src/main/GameReader.ts:119-148 | The whole systems scan only clears the manual-door bits, and changes the mask or the flag only when the corresponding system is present. |
| GameReader.ReadSystems | src/main/GameReader.ts:119-148 | The systems scan computes `SystemsOf`. With a null systems pointer, nothing is visited. |
| GameReader.CommsFlag | src/main/GameReader.ts:126-132 | The sabotage flag after one communications entry. Its cases are stated by `CommsFlagLaw` and its place in the scan by `VisitSystemLaw`. |
| GameReader.CommsFlagLaw | src/main/GameReader.ts:126-132 | A HUD-override system gives its active byte, and an HQ-HUD system gives fewer than 2 completed consoles. Any other type, or a null system pointer, keeps the flag. |
| GameReader.MeetingHudState | src/main/GameReader.ts:80-82 | The meeting HUD state of one tick. Its cases are stated by `MeetingHudLaw`. |
| GameReader.MeetingHudLaw | src/main/GameReader.ts:80-82 | No meeting HUD, or a null HUD cache, gives 4. Otherwise the state is 4 or the Int read at the HUD's state chain. |
| GameReader.Read | src/main/GameReader.ts:80-183 | Everything one tick reads, as a value. `ReadTick` computes it, `SnapshotChain` and `DoorMaskLaw` state what the snapshot's fields are, and `Reader.Loop` consumes it. |
| GameReader.ViewingCameras | src/main/GameReader.ts:150-159 | The mask is 0, -1 or one bit. It is nonzero exactly when a surveillance minigame of either kind is open. |
| GameReader.ReadTick | src/main/GameReader.ts:80-183 | The reads of one tick give the reading `Read` specifies. The order of two reads differs; see Left out. |
| GameReader.SnapshotChain | src/main/GameReader.ts:209-228 | A snapshot's `oldGameState` is the previous snapshot's phase. Its lobby code is the classifier's. Its phase is never UNKNOWN. |
| GameReader.DoorMaskLaw | src/main/GameReader.ts:109-148 | A non-manual door bit is cleared exactly when its door is among the first min(count, 32) and reads closed. |
| GameReader.Reader.constructor | src/main/GameReader.ts:47-57 | The countdown is in range (`Valid`). The countdown is 20, the pointer 0, the latch clear, the phase UNKNOWN, the code "MENU" and no last state. |
| GameReader.Reader.Classify | src/main/GameReader.ts:85-207 | The phase switch, exile latch, debounce and code update set every classifier field but `oldGameState` to its `Step` value and return the reported phase. The countdown stays in [0, 20]. |
| GameReader.Reader.UpdateCode | src/main/GameReader.ts:200-207 | The lobby code becomes the `NextCode` of the reported phase. No other field changes. |
| GameReader.Reader.Commit | src/main/GameReader.ts:209-228 | The countdown stays in [0, 20]. The snapshot is built, emitted when it differs from the last one, and always stored. `oldGameState` becomes the reported phase. |
| GameReader.Reader.Loop | src/main/GameReader.ts:76-230 | The countdown stays in [0, 20]. With no game attached nothing changes. Otherwise the fields take the `Step` of what the tick read, and the snapshot is stored and emitted on change. |
| ShipGeometry.Coords | src/renderer/Ship.ts:73-77 | A path pushes two coordinates per point. |
| ShipGeometry.Pop | src/renderer/Ship.ts:81 | `pop` drops the last start, and does nothing on an empty list. |
| ShipGeometry.U16s | src/renderer/Ship.ts:106 | `Uint16Array.from` keeps the length and reduces each start modulo 2^16. |
| ShipGeometry.AddDoors | src/renderer/Ship.ts:95-107 | There is one segment list per door path. |
| ShipGeometry.Cameras | src/renderer/Ship.ts:108-111 | Each camera keeps at most its first two coordinates, as a prefix. |
| ShipGeometry.PushPoints | src/renderer/Ship.ts:73-80 | The point loop pushes the coordinates and one start per point, advancing the index by 2. |
| ShipGeometry.AddPath | src/renderer/Ship.ts:73-81 | One path: its points are pushed, a start for each, and the last start is popped. `PathSegments` and `EmptyPathPopsPrevious` state its segments, and `AddPathCovered` that its starts are in range. |
| ShipGeometry.AddPaths | src/renderer/Ship.ts:72-94 | The wall or window loop over paths, as a value. `PushPaths` computes it and `AddPathsCovered` states that its starts are in range. |
| ShipGeometry.PushPaths | src/renderer/Ship.ts:72-94 | The wall and window loops compute `AddPaths`. |
| ShipGeometry.PushDoors | src/renderer/Ship.ts:95-107 | The door loop computes `AddDoors`, with a new list per door. |
| ShipGeometry.CopyCameras | src/renderer/Ship.ts:108-111 | The camera loop computes `Cameras`. |
| ShipGeometry.ParseSpec | src/renderer/Ship.ts:67-113 | `parse` as a value: walls, then windows, then doors, sharing one point buffer and index. `Parse` computes it, and `ParsePoints` and `ParseIndicesValid` state its buffer and its indices. |
| ShipGeometry.Parse | src/renderer/Ship.ts:67-113 | `parse` yields `ParseSpec`: walls, then windows, then doors, sharing one point buffer and index. |
| ShipGeometry.CoordsAt | src/renderer/Ship.ts:74-77 | Point k's coordinates sit at 2k and 2k + 1. |
| ShipGeometry.SegmentCoords | src/renderer/Ship.ts:41-44 | Segment k of a path reads points k and k + 1. |
| ShipGeometry.PathSegments | src/renderer/Ship.ts:72-82 | A path of n points appends its coordinates and the n - 1 starts whose four-number windows are its consecutive point pairs. |
| ShipGeometry.EmptyPathPopsPrevious | src/renderer/Ship.ts:81 | An empty path pops the previous path's last segment: one wall of two points gives [0], and adding an empty wall gives []. |
| ShipGeometry.AddPathsCovered | src/renderer/Ship.ts:72-94 | After any paths, every start indexes four points inside the buffer. |
| ShipGeometry.AddDoorsCovered | src/renderer/Ship.ts:95-107 | Every door start indexes four points inside the buffer. |
| ShipGeometry.ParsePoints | src/renderer/Ship.ts:67-113 | The points are the walls', then the windows', then the doors' coordinates. There is one door list per door path. |
| ShipGeometry.ParseIndicesValid | src/renderer/Ship.ts:67-113 | Every start a parsed ship holds reads four points in range. |
| ShipGeometry.Cross | src/renderer/Ship.ts:59 | The cross product is a number exactly when all six coordinates are. |
| ShipGeometry.Orientation | src/renderer/Ship.ts:58-61 | The result is NaN, 0, 1 or -1. It is NaN exactly when some coordinate is not a number (NaN or undefined), and 0 exactly when the cross product is within 0.01. Otherwise it has the cross product's sign. |
| ShipGeometry.IntersectsFrom | src/renderer/Ship.ts:39-56 | The result is 1 exactly when some segment from i onward satisfies the orientation test, else 0. |
| ShipGeometry.Intersects | src/renderer/Ship.ts:39-56 | The result is 1 exactly when some segment in the list crosses, else 0. An empty list gives 0. |
| ShipGeometry.DoorsFrom | src/renderer/Ship.ts:28-35 | The result is 1 exactly when some door from i onward is closed in the mask and crossed. |
| ShipGeometry.Blocked | src/renderer/Ship.ts:19-37 | A wall gives 1. Otherwise a window gives 0.5, and otherwise a crossed closed door gives 1. With none of these the result is 0. |
| ShipGeometry.OrientationSwap | src/renderer/Ship.ts:58-61 | Swapping the first two points negates the orientation. |
| ShipGeometry.DifferNegate | src/renderer/Ship.ts:49 | Negating both orientations keeps their inequality. |
| ShipGeometry.CrossesSymmetric | src/renderer/Ship.ts:45-49 | The segment test does not depend on the sight line's direction. |
| ShipGeometry.IntersectsSymmetric | src/renderer/Ship.ts:39-56 | `intersects` is symmetric in the two players. |
| ShipGeometry.BlockedSymmetric | src/renderer/Ship.ts:19-37 | Occlusion is symmetric: the speaker and the listener hear each other alike. |
| ShipGeometry.PointIntersectsNothing | src/renderer/Ship.ts:39-56 | A zero-length sight line crosses no segment. |
| ShipGeometry.ZeroLengthNotBlocked | src/renderer/Ship.ts:19-37 | Two players at the same position are never blocked. |
| ShipGeometry.NoSegmentsNotBlocked | src/renderer/Ship.ts:19-37 | A ship without segments blocks nothing. |
| ShipGeometry.EmptyShipClear | src/renderer/Voice.tsx:96 | The empty map blocks nothing and has no cameras. |
| ShipGeometry.OpenDoorIrrelevant | src/renderer/Ship.ts:28-35 | The geometry of an open door has no effect on occlusion. |
| Voice.DistSq | src/renderer/Voice.tsx:156-160 | The squared distance is a number exactly when all coordinates are, and is then non-negative. |
| Voice.DistSqSymmetric | src/renderer/Voice.tsx:156-160 | The squared distance is symmetric in the two points. |
| Voice.MapShip | src/renderer/Voice.tsx:96-107 | A map code other than the three known maps uses the empty ship. |
| Voice.Gain | src/renderer/Voice.tsx:82-131 | The gain is 0, 0.5 or 1. |
| Voice.FirstCamera | src/renderer/Voice.tsx:119-127 | The first watched camera within range, or none exactly when no camera qualifies. |
| Voice.Sanitise | src/renderer/Voice.tsx:147-150 | NaN becomes 999 and the value is clamped to [-999, 999]. In-range values are kept. |
| Voice.ScanLoop | src/renderer/Voice.tsx:118-127 | The loop finds `FirstCamera`, and sets the camera gain to 1 - sqrt(dist)/3 for that camera, or 0 when there is none. |
| Voice.GainAndCameras | src/renderer/Voice.tsx:82-131 | The gain chain and camera loop compute `Gain`, `SelectedCamera` and `CamsGain`. |
| Voice.SanitisePan | src/renderer/Voice.tsx:147-150 | Both slots of the panner array are sanitised in place. |
| Voice.Decide | src/renderer/Voice.tsx:65-154 | `calculateVoiceAudio`'s targets as a value. `CalculateVoiceAudio` computes it, and `Gain`'s lemmas, `CameraSelection`, `BleedIffCamera`, `Routing`, `PanLaw` and `LobbyHearsAll` state them. |
| Voice.CalculateVoiceAudio | src/renderer/Voice.tsx:65-154 | The whole routine yields `Decide`. |
| Voice.HalfGainBehindWindow | src/renderer/Voice.tsx:108-116 | The gain is 0.5 exactly in TASKS, in range, with a living listener, no comms sabotage, no wall, and a window between. |
| Voice.FarSilentInTasks | src/renderer/Voice.tsx:108-109 | In TASKS, a speaker beyond 6 units is silent. |
| Voice.CommsSilenceInTasks | src/renderer/Voice.tsx:112-113 | With comms sabotaged, a living listener in TASKS hears nobody, impostor or not. |
| Voice.GhostsAndVents | src/renderer/Voice.tsx:89-92 | Outside the lobby, a speaker in a vent is silent. A dead speaker is heard exactly by a dead listener within 6 units, outside MENU. |
| Voice.DiscussionHearsLiving | src/renderer/Voice.tsx:93-94 | In DISCUSSION every living speaker outside a vent is at full gain. |
| Voice.FullGainInTasks | src/renderer/Voice.tsx:114-115 | For a living, unvented speaker in range in TASKS, heard by a living listener with working comms, the gain is 1 exactly when nothing blocks. |
| Voice.CameraSelection | src/renderer/Voice.tsx:117-127 | A camera is selected only when the scan runs: TASKS, a living unvented speaker, gain below 1, working comms and some camera watched. A selected camera is watched, in range, and the first such. When the scan runs, none is selected exactly when none qualifies. |
| Voice.BleedIffCamera | src/renderer/Voice.tsx:117-127 | The camera gain is in [0, 1], and is nonzero exactly when a camera was selected. |
| Voice.Routing | src/renderer/Voice.tsx:132-145 | Camera bleed ramps to 1 when a camera sees the speaker and to 0 otherwise. A gain of 0.5 ramps to the muffled route, and any other gain to main. Z is -0.5. |
| Voice.PanLaw | src/renderer/Voice.tsx:68-81 | The position is set exactly when the gain is positive, within ±999. It is centred in DISCUSSION and LOBBY, relative in stereo (999 when undefined), and x = 0 in mono. Outside DISCUSSION and LOBBY, y is the sanitised y difference in stereo, and the sanitised square root of the distance in mono. |
| Voice.LobbyHearsAll | src/renderer/Voice.tsx:85-86 | In the lobby everyone is at full gain, centred, without cameras. |
| Voice.FirstLocal | src/renderer/Voice.tsx:471 | `find(p => p.isLocal)` returns the first local player, or none exactly when nobody is local. |
| Voice.MyPlayer | src/renderer/Voice.tsx:469-472 | The local player of the state, or none when there is no state or nobody is local. |
| Voice.NonLocal | src/renderer/Voice.tsx:477 | `players.filter(p => !p.isLocal)`: no longer than its input. `NonLocalMembers` and `NonLocalAppend` state which players it keeps and in what order. |
| Voice.NonLocalMembers | src/renderer/Voice.tsx:477 | The filter keeps exactly the non-local players. |
| Voice.NonLocalAppend | src/renderer/Voice.tsx:477 | The filter distributes over concatenation, so order is kept. |
| Voice.OtherPlayers | src/renderer/Voice.tsx:474-478 | The list is empty with no state, in MENU, or with no local player. Otherwise it holds exactly the non-local players. |
| Voice.OtherDeadAfter | src/renderer/Voice.tsx:239-251 | One run of the otherDead effect, as a value. `UpdateOtherDead` computes it, and `OtherDeadLaw` with the `MarkGone` lemmas state it. |
| Voice.UpdateOtherDead | src/renderer/Voice.tsx:239-251 | The effect's loop computes `OtherDeadAfter`. |
| Voice.MarkGoneKeys | src/renderer/Voice.tsx:245-248 | Marking keeps every key and adds every player's id. |
| Voice.MarkGoneKeeps | src/renderer/Voice.tsx:245-248 | The entry of an id no player has is kept. |
| Voice.MarkGoneLast | src/renderer/Voice.tsx:245-248 | A player's entry is dead-or-disconnected unless a later player has the same id. |
| Voice.OtherDeadLaw | src/renderer/Voice.tsx:239-251 | LOBBY clears the record and TASKS keeps it. Any other phase adds every player's id, keeps the others, and marks each player dead or disconnected (the last of an id wins). |
| VoiceActivity.CounterStep | src/renderer/vad.ts:172-176 | The counter stays in [0, 30]. It rises on a loud frame below 30 and falls on a quiet frame above 0. |
| VoiceActivity.Edge | src/renderer/vad.ts:179-182 | A callback fires exactly when the state differs from the previous one: start for speaking, stop for silence. |
| VoiceActivity.RunBounded | src/renderer/vad.ts:172-176 | The counter stays in [0, 30] over any run of frames. |
| VoiceActivity.LoudRun | src/renderer/vad.ts:172-173 | n loud frames raise the counter by n, capped at 30. |
| VoiceActivity.QuietRun | src/renderer/vad.ts:174-175 | n quiet frames lower it by n, down to 0. |
| VoiceActivity.SixLoudFrames | src/renderer/vad.ts:177 | From silence, six loud frames are needed to detect speech. |
| VoiceActivity.HangOver | src/renderer/vad.ts:177 | From full, speech stays detected for 24 quiet frames and ends at the 25th. |
| VoiceActivity.NonZero | src/renderer/vad.ts:100-102 | The filter keeps no zero, and never grows the list. |
| VoiceActivity.NonZeroMembers | src/renderer/vad.ts:100-102 | The filter keeps exactly the nonzero averages. |
| VoiceActivity.MinFromLaw | src/renderer/vad.ts:103 | The min-fold is at most its start and every value, and equals one of them. |
| VoiceActivity.NoiseClampLaw | src/renderer/vad.ts:106-107 | Nonzero ordered bounds put the base level between them. A level already inside is kept. Zero bounds leave it alone. |
| VoiceActivity.BaseLevel | src/renderer/vad.ts:103-107 | `init`'s base level: the least nonzero capture (or the minimum level), scaled and clamped. `LeastAverage`, `MinFromLaw` and `NoiseClampLaw` state it, and `Vad.Init` computes it. |
| VoiceActivity.LeastAverage | src/renderer/vad.ts:103 | The average is at most 1 and at most every nonzero capture, and is 1 or one of them. |
| VoiceActivity.Vad.constructor | src/renderer/vad.ts:46-94 | The counter is 0, nothing is detected and there is no previous state. Capture is on exactly when its duration is positive. The noise options are stored. |
| VoiceActivity.Vad.Init | src/renderer/vad.ts:96-112 | Capture ends. The zero averages are dropped. The base level is the clamped scaled least average, and the voice scale is 1 minus it. |
| VoiceActivity.Vad.Monitor | src/renderer/vad.ts:152-185 | During capture the average is only appended. Afterwards the counter steps, the state is the threshold test, the edge callback is returned and the previous state is recorded. |
| VoiceActivity.FirstFrameFires | src/renderer/vad.ts:33 | The first frame after capture always fires, because the previous state starts undefined. |
| VoiceActivity.EdgesAlternate | src/renderer/vad.ts:179-182 | After a callback, only the opposite state fires next, so start and stop alternate. |

## Left out

- Process discovery, opening and closing (`checkProcessOpen`, `close`) and the IPC reply are out of scope. `Loop` takes the module base as an option instead.
- The structron player layout is left out: `record` gives the decoded fields.
- The UTF-8 decoding of `readBuffer` is left out: `text` gives the decoded characters.
- The state-diff library is left out: `differs` stands for `patcher.diff`.
- The `process.exit` on a failed reply is left out.
- GameReader.ReadTick: does not reproduce the order of the lobby-code and exiled-player reads relative to the player loop, which does not matter for a memory that does not change during a tick.
- Numbers are exact reals. A raw float read (`Memory.raw`) is a real, so a read from the game never yields NaN or an infinity. Float32 rounding of player positions and ship points, infinities, and `Math.sqrt` (a parameter) are not modelled.
- Masks are 32 booleans. Shifts use only the count's low five bits, as JavaScript does.
- ShipGeometry.Parse: assumes every JSON point has two coordinates; a missing coordinate (`undefined`) is not modelled.
- ShipGeometry.Parse: the Float32Array and Uint16Array conversions keep points exact and reduce starts modulo 2^16 only.
- The Web Audio graph, timing ramps and `setValueAtTime` are left out. `VoiceAudio` records the targets each call sets.
- The deafened override and the audio-element lookup by socket id in `otherPlayers` are left out, as are the signalling and peer-connection code.
- Voice.DistSq: does not state that the distance is zero only for equal points, because the solver's nonlinear real arithmetic cannot prove that.
- The renderer's state before the first snapshot (`{}`) is modelled as None.
- Voice.OtherDeadAfter: a snapshot without a player list is modelled as an empty list.
- VoiceActivity.Vad.Monitor: the sample pass-through and the spectrum averaging (`analyserFrequency`) are left out; the average is a parameter.
- VoiceActivity.Vad.Monitor: the `onUpdate` level is left out, because its division by a zero voice scale gives an infinity.
- VoiceActivity.Vad.Init: the lexicographic `sort()` is left out; `envFreqRange` keeps the filtered averages in capture order. The minimum does not depend on order.
- The capture timer and the `connect`/`destroy` methods of the VAD are left out.
- VoiceActivity.Vad.constructor: takes the options already merged. The defaults that vad.ts fills in (minNoiseLevel 0.3, maxNoiseLevel 0.7, avgNoiseMultiplier 1.2, noiseCaptureDuration 1000) are not modelled.
- Voice.OtherDeadAfter: models one run of the effect on the snapshot it is given. The effect's dependency list `[gameState.gameState]` (src/renderer/Voice.tsx:251) makes React run it only when the phase changes. Which snapshots reach the effect is not modelled.
- The Avatar component, the settings UI and the map data files are not part of this model.
