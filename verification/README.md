# BB Death Detector — a verified model of its detection core

BB Death Detector watches a game window and counts deaths in Bloodborne and
similar games. A capture region picks out the part of the game window where
"YOU DIED" appears. OCR reads that region on every pass of the main loop. A
keyword matcher decides whether the text announces a death. A streak counter
confirms a death only after enough consecutive matching frames. A cooldown
gate then sends at most one death message per cooldown to the tracking
server. Around this path sit:

- a dotted-key settings store and a change-notifying state store;
- global hotkeys;
- two region selectors: an F9 corner picker and a drag overlay;
- the window searches and crop clamp used for capture;
- the parsers, formatters and small state machines of the setup,
  calibration, settings, history and stats views.

This project models those pieces in Dafny and proves what they promise.

**Modules.** There is one module per source file, plus shared modules:

- `Wrappers`: `Option`.
- `Text`: Python string operations over `seq<char>`. These include
  `upper`/`lower`, `strip`, `split`, `join`, `str(int)`, `int(str)` and
  `float(str)`.
- `Geometry`: rectangles, windows, clamped fractions and `int()` truncation.
- `TimeFormat`: `format_time`. The history section, the history tab and the
  stats tab each define an identical copy.
- `Recent`: the "last N, newest first" lists.
- `Labels`: the monitor, frame-rate and cooldown widget texts. The setup
  section and the settings tab share them.
- `RegionPanel`: the region panel that setup and calibration share.

**Style.** Code that updates objects in place is modelled as classes:

- `Config` and `StateManager`;
- `GlobalHotkeys` and `DeathDetector`;
- `CornerSelector` and `OverlaySelector`;
- the application controller;
- the setup, calibration, history, stats and settings views.

Each method's `ensures` states its whole new state in terms of
specification functions, and lemmas prove the properties about those
functions. Pure code is modelled as functions and lemmas.

**Outside inputs.** The OCR engine, the operating system's window lists, the
clock, captured frames and every callback are parameters of the model:

- callbacks and network sends are recorded in order as event logs;
- a captured frame is the text OCR recognised in it;
- a window list is a sequence of records.

## Model

| member | source | states |
|---|---|---|
| Detector.Normalise | bb_detector/detector.py:200 | the canonical text holds only upper-case letters and digits |
| Detector.CorrectPointwise | bb_detector/detector.py:203-212 | the replace chain keeps the length and maps each character through 0→O, 1→I, 3→E, 5→S, 7→T, leaving the rest alone |
| Detector.CorrectIdempotent | bb_detector/detector.py:203-214 | corrected text contains none of 0,1,3,5,7, so correcting twice equals correcting once |
| Detector.MatchesWithoutFuzzy | bb_detector/detector.py:199-224 | with fuzzy matching off, the text matches iff some keyword (spaces removed, upper-cased) occurs at some position of the canonical text |
| Detector.FuzzyOnlyWidens | bb_detector/detector.py:213-222 | fuzzy matching never loses a match: a match without it is a match with it |
| Detector.StreakKeySplit | bb_detector/detector.py:59 | the key `settings.consecutive_hits` splits into the two-segment path `get` walks |
| Detector.FuzzyKeySplit | bb_detector/detector.py:62 | the key `settings.fuzzy_ocr_matching` splits into its two-segment path |
| Detector.GameKeysSplit | bb_detector/detector.py:65-66 | `current_game` is one segment and `games.{name}` is `games` followed by the name's own dot-separated parts |
| Detector.LoadSettingsDefaults | bb_detector/detector.py:55-75 | with no settings, game or games entries the detector uses streak 2, fuzzy on, the built-in keyword list and `--oem 3 --psm 6` |
| Detector.DefaultConfigSettings | bb_detector/detector.py:42-46 | a detector built on a fresh settings store gets exactly those built-in settings |
| Detector.StepFacts | bb_detector/detector.py:127-143 | one step keeps the counter in 0..N-1; with N ≥ 1 it confirms iff the frame is a hit that brings the counter to N; a miss resets it to 0 |
| Detector.NonPositiveStreakAlwaysConfirms | bb_detector/detector.py:137-141 | with a required streak ≤ 0 every call confirms, hit or miss |
| Detector.CounterIsStreakModulo | bb_detector/detector.py:127-141 | after any run of hits and misses the counter is the current run of hits modulo N, and a call confirms iff that run is a positive multiple of N |
| Detector.StreakConfirmsOnNth | bb_detector/detector.py:127-141 | N consecutive hits after a miss (or from the start) give N-1 non-confirmations and then a confirmation |
| Detector.InterruptedStreakNeverConfirms | bb_detector/detector.py:127-137 | with N = 2, hit, miss, hit confirms at no call |
| Detector.ScanDetectsIff | bb_detector/detector.py:173-188 | the candidate loop detects iff some candidate matches with every earlier candidate recognised and unmatched; the text returned is at most 50 characters |
| Detector.FoundKeywordsMatch | bb_detector/detector.py:284-288 | every keyword the test lists as found is a configured keyword the matcher accepts |
| Detector.FoundKeywordsCanMissMatches | bb_detector/detector.py:287 | the found list tests the keyword without upper-casing it, so a lower-case keyword can match yet not be listed |
| Detector.DeathDetector.constructor | bb_detector/detector.py:42-53 | a new detector holds the settings read from the store, a zero counter, no last method and confidence 0.0 |
| Detector.DeathDetector.Reload | bb_detector/detector.py:87-91 | reload re-reads every setting from the given store and resets the counter to 0 |
| Detector.DeathDetector.ContainsKeyword | bb_detector/detector.py:190-224 | the keyword loop returns true iff some keyword form occurs in the canonical or the corrected text |
| Detector.DeathDetector.OcrDetect | bb_detector/detector.py:173-188 | the loop over the two thresholded images returns what the candidate-scan specification gives |
| Detector.DeathDetector.ConfirmDetection | bb_detector/detector.py:116-143 | the counter moves by one streak step and the confirmation is that step's; a hit records the method, a miss clears it; the confidence is passed through and the counter stays in range |
| Detector.DeathDetector.CheckDeath | bb_detector/detector.py:93-114 | no frame returns (False, 0.0) and changes nothing; otherwise the frame is a hit iff OCR is available and finds a keyword, the confidence is 1.0 on a hit and 0.0 otherwise, and the counter steps |
| Detector.DeathDetector.FindKeywords | bb_detector/detector.py:284-288 | the found list holds, in order, the keywords whose space-free form occurs in the canonical text |
| Detector.DeathDetector.TestDetection | bb_detector/detector.py:247-293 | the test changes no detector state; no frame, no OCR or an OCR error on the bright image give the empty report; otherwise it reports whether the bright text matches, the stripped text and the keywords found, with the fuzzy flag |
| Geometry.Trunc | bb_detector/ui/corner_selector.py:216-219 | `int()` truncates toward zero |
| Geometry.ClampFacts | bb_detector/ui/corner_selector.py:151-155 | clamped fractions satisfy 0 ≤ x, y ≤ 1, 0 ≤ w ≤ 1 - x and 0 ≤ h ≤ 1 - y; fractions already in range are unchanged |
| Geometry.CornerFractionsFacts | bb_detector/ui/corner_selector.py:145-155 | the stored fractions lie in the window, and a dimension ≤ 0 gives zero fractions along it |
| Geometry.CornerFractionsExact | bb_detector/ui/corner_selector.py:146-149 | a rectangle inside a window of positive size is stored as its exact fractions, with no clamping |
| Corners.AbsoluteFallback | bb_detector/ui/corner_selector.py:202-211 | without bounds, an empty window name or a window not found returns the stored absolute entry unchanged (None if absent) |
| Corners.AbsoluteFromWindow | bb_detector/ui/corner_selector.py:213-226 | otherwise the result is the window's bounds scaled by the fractions, each coordinate truncated |
| Corners.ZeroFractionsGiveEmptyRect | bb_detector/ui/corner_selector.py:216-219 | zero fractions give a zero-size rectangle at the window's corner |
| Corners.ScaleExample | bb_detector/ui/corner_selector.py:215-219 | (0.25, 0.40, 0.50, 0.20) of {100, 50, 800, 600} is {300, 290, 400, 120} |
| Corners.Normalised | bb_detector/ui/corner_selector.py:139-143 | the swapped corners satisfy x1 ≤ x2 and y1 ≤ y2 and keep the same coordinates |
| Corners.CornerRegionFacts | bb_detector/ui/corner_selector.py:139-170 | the region's fractions lie in the window, and its absolute fallback has width x2-x1 ≥ 0 and height y2-y1 ≥ 0 |
| Geometry.ScaleUndoesFractions | bb_detector/ui/corner_selector.py:216-219 | in exact arithmetic, scaling the fractions of a rectangle by the window they came from gives the rectangle back (Python's doubles can come back one pixel short: 0.29 of 100 gives 28) |
| Corners.CornerRegionRoundTrip | bb_detector/ui/corner_selector.py:145-226 | in exact arithmetic, two corners inside a window, stored and resolved against that window, give back exactly the chosen rectangle (Python's doubles can come back one pixel short: a 29-pixel side of a 100-pixel window resolves to 28) |
| Corners.CornerSelector.constructor | bb_detector/ui/corner_selector.py:38-41 | a new selector is inactive, with no corners and no target window |
| Corners.CornerSelector.Start | bb_detector/ui/corner_selector.py:49-61 | start while active changes nothing; otherwise the selector becomes active with no corners and no window, and reports step 0 |
| Corners.CornerSelector.Stop | bb_detector/ui/corner_selector.py:63-66 | stop deactivates and keeps the corners |
| Corners.CornerSelector.Cancel | bb_detector/ui/corner_selector.py:81-88 | cancel deactivates, reports step -1 and calls the cancel callback once |
| Corners.CornerSelector.OnF9Pressed | bb_detector/ui/corner_selector.py:68-79 | F9 returns false and changes nothing when inactive; otherwise it returns true and handles the key |
| Corners.CornerSelector.OnHotkey | bb_detector/ui/corner_selector.py:90-122 | the first press with no window keeps zero corners and stays active; with a window it records the corner and the target; the second press completes with exactly one completion |
| Corners.CornerSelector.Complete | bb_detector/ui/corner_selector.py:124-181 | with no target or a corner count other than two it cancels; otherwise it deactivates and reports the computed region once |
| WindowUtils.FirstIndex | bb_detector/window_utils.py:174-192 | the result is the first index whose element passes the test, or none when no element passes |
| WindowUtils.WindowAtPointMac | bb_detector/window_utils.py:29-79 | the first listed window that contains the point, edges included, skipping Window Server, Dock and SystemUIServer |
| WindowUtils.FindByNameMac | bb_detector/window_utils.py:155-197 | the first window whose owner name contains the query, ignoring case |
| WindowUtils.VisibleWindowsFacts | bb_detector/window_utils.py:346-368 | every listed window comes from an input window with an application owner and positive size, and every such window is listed |
| WindowUtils.ListVisibleMac | bb_detector/window_utils.py:328-373 | the listing loop builds exactly that filtered list |
| WindowUtils.FindByNameWindows | bb_detector/window_utils.py:200-254 | the first visible window of a matching process with positive size |
| WindowUtils.CropInImage | bb_detector/window_utils.py:526-535 | for any fractions the crop satisfies 0 ≤ x ≤ width-1, 0 ≤ y ≤ height-1, 1 ≤ w ≤ width-x and 1 ≤ h ≤ height-y |
| WindowUtils.CropOfZeroFractions | bb_detector/window_utils.py:532-535 | zero fractions crop the single top-left pixel |
| WindowUtils.CaptureRegionMac | bb_detector/window_utils.py:455-544 | no capture without a matching owner, with window id 0, with no image or with an image of non-positive size; otherwise the clamped crop |
| WindowUtils.CaptureRegionWindows | bb_detector/window_utils.py:547-650 | no capture without a window of the named process, with a null handle or with a non-positive client size; otherwise the clamped crop of the client area |
| Overlay.SignExtend16 | bb_detector/ui/overlay_selector.py:205-206 | a 16-bit word read as signed lies in -32768..32767 and equals the word modulo 65536 |
| Overlay.SignExtendOfWord | bb_detector/ui/overlay_selector.py:205-206 | sign extension recovers every signed 16-bit value from its word |
| Overlay.MousePosOfPacked | bb_detector/ui/overlay_selector.py:201-208 | decoding a packed client point gives back the point shifted by the virtual-screen origin |
| Overlay.Mid | bb_detector/ui/overlay_selector.py:298-299 | for a ≤ b the floor midpoint lies between a and b |
| Overlay.CalculateRegionFacts | bb_detector/ui/overlay_selector.py:294-333 | with a window at the midpoint, the region is the corner selector's region for that window; without one the name is empty and the fractions are zero; the fallback is always {x1, y1, x2-x1, y2-y1} |
| Overlay.ShowOutcome | bb_detector/ui/overlay_selector.py:28-46 | show reports cancel iff unsupported or cancelled, else completion iff a region exists |
| Overlay.OverlaySelector.constructor | bb_detector/ui/overlay_selector.py:18-26 | a new overlay has no result and is not cancelled |
| Overlay.OverlaySelector.Open | bb_detector/ui/overlay_selector.py:147-184 | opening records the virtual-screen origin and runs with no drag |
| Overlay.OverlaySelector.OnButtonDown | bb_detector/ui/overlay_selector.py:216-225 | button down starts a drag at the pointer |
| Overlay.OverlaySelector.OnMouseMove | bb_detector/ui/overlay_selector.py:227-233 | a move updates the current point only while dragging |
| Overlay.OverlaySelector.OnButtonUp | bb_detector/ui/overlay_selector.py:235-258 | button up without a drag accepts nothing; after a drag the corners are normalised, both sides ≥ 10 store the computed region and stop the loop, and a smaller rectangle clears the start and keeps running |
| Overlay.OverlaySelector.OnKeyDown | bb_detector/ui/overlay_selector.py:260-265 | Escape sets cancelled and stops the loop; other keys change nothing |
| Overlay.OverlaySelector.OnDestroy | bb_detector/ui/overlay_selector.py:288-290 | destroying the window stops the loop |
| App.DispatchedSpaced | bb_detector/main.py:172-176 | dispatched deaths are confirmed deaths, each strictly more than the cooldown after the previous dispatch |
| App.DispatchedSnoc | bb_detector/main.py:172-176 | one more confirmation is sent exactly when it is more than the cooldown after the last send so far |
| App.TwoWithinCooldownDispatchOnce | bb_detector/main.py:173-175 | two confirmations within the cooldown of each other dispatch once |
| App.BBDetectorApp.constructor | bb_detector/main.py:28-34 | the last-death time starts at 0 and nothing has been sent |
| App.BBDetectorApp.Tick | bb_detector/main.py:162-176 | the detector runs only when detection is enabled and connected and a frame exists, and then its streak counter, last method and last confidence move as `check_death` on that frame says while its settings stay; a confirmed death is sent iff now minus the last dispatch exceeds the cooldown, and only a send moves the last-death time |
| App.BBDetectorApp.Dispatch | bb_detector/main.py:172-176 | a confirmed death is sent iff more than the cooldown has passed since the last send, and a send moves the last-death time to now |
| App.BBDetectorApp.DispatchAll | bb_detector/main.py:162-176 | over a run of confirmed deaths the deaths sent are exactly `Dispatched` from the starting last-death time, one death message each, and the last-death time ends at the last of them |
| App.BBDetectorApp.HandleDeath | bb_detector/main.py:193-200 | sends a boss death in boss mode, else a death |
| App.BBDetectorApp.OnManualDeath | bb_detector/main.py:222-230 | a manual death skips the cooldown and sends nothing when disconnected or before the loop exists |
| App.BBDetectorApp.OnToggleBoss | bb_detector/main.py:247-267 | toggle-boss sends a cancel in boss mode and a start otherwise, each only with a loop and a connection |
| App.BBDetectorApp.OnToggleDetection | bb_detector/main.py:269-271 | the detection flag becomes the negation of its truth value, and the subscribers are notified exactly when the stored value changes |
| ConfigStore.PyEqIsEquivalence | bb_detector/state.py:37 | Python `==` on settings values is reflexive, symmetric and transitive |
| ConfigStore.PyEqExamples | bb_detector/state.py:36-37 | False == 0 == 0.0 and True == 1, while None equals none of them |
| ConfigStore.DeepCopyEqual | bb_detector/config.py:50-55 | the deep copy is equal to the original |
| ConfigStore.GetValueCases | bb_detector/config.py:85-95 | get returns either the default or the value stored at the key's dotted path, and returns None only when the default is None |
| ConfigStore.TwoSegmentKey | bb_detector/config.py:85-93 | a dotted key `a.b` reads the nested entry b of a |
| ConfigStore.DefaultsRead | bb_detector/config.py:12-33 | a fresh store reads fps 10, death threshold 0.75, cooldown 5.0 and overlay enabled |
| ConfigStore.DefaultProfileNameReadsDefault | bb_detector/config.py:95 | the stored None under `profile.name` reads as the caller's default |
| ConfigStore.LookupSnoc | bb_detector/config.py:89-93 | walking a path one key longer looks that key up in the value found so far |
| ConfigStore.SetPathFailsIff | bb_detector/config.py:101-106 | set fails (Python raises) iff some proper prefix of the path reaches a stored value that is not a dict |
| ConfigStore.SetPathIntoEmpty | bb_detector/config.py:101-104 | writing below freshly created dicts never fails |
| ConfigStore.SetThenLookup | bb_detector/config.py:97-106 | after a successful set the value is found at its path |
| ConfigStore.SetThenGet | bb_detector/config.py:85-106 | after a successful `set(k, v)`, `get(k)` returns v, or the default when v is None |
| ConfigStore.SetLeavesOthers | bb_detector/config.py:101-106 | a set leaves every path that diverges from the written one unchanged |
| ConfigStore.MergeMaps | bb_detector/config.py:69-74 | the merged keys are the base keys plus the update keys |
| ConfigStore.MergeNothing | bb_detector/config.py:70 | merging an empty dict is the identity |
| ConfigStore.MergeSelf | bb_detector/config.py:69-74 | merging a tree into itself leaves it unchanged |
| ConfigStore.MergeIdempotent | bb_detector/config.py:69-74 | merging the same updates twice equals merging them once |
| ConfigStore.MergeLeafWins | bb_detector/config.py:71-74 | every non-dict value in the updates ends up at its path |
| ConfigStore.MergeKeepsUntouched | bb_detector/config.py:70-72 | paths the updates do not reach keep their base value |
| ConfigStore.Config.constructor | bb_detector/config.py:44-48 | a new store holds the defaults |
| ConfigStore.Config.Get | bb_detector/config.py:85-95 | the walking loop returns the get specification |
| ConfigStore.Config.Set | bb_detector/config.py:97-106 | the new tree is the set specification's; where Python raises, nothing changes |
| ConfigStore.Config.Load | bb_detector/config.py:57-67 | a missing or unreadable file changes nothing; a JSON object is merged into the settings; a JSON value that is not an object raises and changes nothing |
| State.Broadcast | bb_detector/state.py:48-53 | a change calls every subscriber once, in subscription order |
| State.SetStep | bb_detector/state.py:34-39 | set keeps the key set, stores a value equal to the new one under an existing key, and changes no other key |
| State.RemoveFirst | bb_detector/state.py:44-46 | removing an absent callback changes nothing |
| State.RemoveFirstAt | bb_detector/state.py:46 | remove drops exactly the first occurrence and keeps the order of the rest |
| State.RemoveFirstCount | bb_detector/state.py:44-46 | unsubscribe takes one copy of the callback out and nothing else |
| State.Replay | bb_detector/state.py:69-71 | applying the server message never adds a key |
| State.ReplayLeavesOthers | bb_detector/state.py:69-71 | a key that no rename targets keeps its value |
| State.ReplayStores | bb_detector/state.py:69-71 | every renamed key present in the message ends up equal to the message's value |
| State.ServerTargets | bb_detector/state.py:57-67 | every rename in the server map targets one of the nine listed state keys |
| State.ServerKeepsLocalFlags | bb_detector/state.py:55-71 | a server message never touches `connected` or `detection_enabled` |
| State.ServerRenamesApply | bb_detector/state.py:60-61 | `isRunning` lands in `is_running` and `bossFightMode` in `boss_mode` |
| State.StateManager.constructor | bb_detector/state.py:8-22 | a fresh state: deaths 0, elapsed 0, not running, no boss mode, not connected, detection enabled, no subscribers |
| State.StateManager.Get | bb_detector/state.py:31-32 | get returns the stored value, or the default for an unknown key |
| State.StateManager.Notify | bb_detector/state.py:48-53 | notify calls every subscriber once, in order, even when some raise |
| State.StateManager.Set | bb_detector/state.py:34-39 | set ignores unknown keys and equal values and notifies nobody then; otherwise it stores the value and notifies everyone |
| State.StateManager.Subscribe | bb_detector/state.py:41-42 | the callback is appended |
| State.StateManager.Unsubscribe | bb_detector/state.py:44-46 | the first occurrence is removed if present |
| State.StateManager.UpdateFromServer | bb_detector/state.py:55-71 | the state and the notifications are those of one set per renamed key present in the message, in the map's order |
| State.StateManager.ApplyRenames | bb_detector/state.py:69-71 | the loop performs exactly the replay of the rename list |
| Hotkeys.ComboOfParts | bb_detector/hotkeys.py:15-18 | a combo's key set is the set of its '+'-separated parts, each normalised |
| Hotkeys.NormalizePartIgnoresCaseAndSpace | bb_detector/hotkeys.py:16 | surrounding whitespace and case do not change a part |
| Hotkeys.CmdIsCtrl | bb_detector/hotkeys.py:16 | "cmd" and "ctrl" normalise to the same part |
| Hotkeys.SameCombo | bb_detector/hotkeys.py:15-19 | combos whose parts normalise alike are the same key set, whatever the order |
| Hotkeys.SwapPart | bb_detector/hotkeys.py:15-18 | swapping a part for one that normalises alike leaves the combo unchanged |
| Hotkeys.CmdComboIsCtrlCombo | bb_detector/hotkeys.py:16-18 | "cmd+…" and "ctrl+…" denote the same combo |
| Hotkeys.NormalizeKey | bb_detector/hotkeys.py:43-71 | a normalised key name is never empty |
| Hotkeys.ModifierSides | bb_detector/hotkeys.py:44-63 | both ctrl keys and all cmd keys read as ctrl, both shifts as shift, alt and alt_gr as alt |
| Hotkeys.CharKeyIgnoresCase | bb_detector/hotkeys.py:65-66 | a character key reads as its lower-case character |
| Hotkeys.GlobalHotkeys.constructor | bb_detector/hotkeys.py:8-12 | no hotkeys and no keys held |
| Hotkeys.GlobalHotkeys.Register | bb_detector/hotkeys.py:14-19 | the combo's key set maps to the callback, replacing an earlier one |
| Hotkeys.GlobalHotkeys.Unregister | bb_detector/hotkeys.py:21-26 | the combo's key set is removed; an absent combo changes nothing |
| Hotkeys.GlobalHotkeys.OnPress | bb_detector/hotkeys.py:73-84 | a press adds the key to the held set and fires the callback only when the held set equals a registered combo exactly; an unnamed key changes nothing |
| Hotkeys.GlobalHotkeys.OnRelease | bb_detector/hotkeys.py:86-90 | a release removes the key; a key not held or unnamed changes nothing |
| TimeFormat.Parts | bb_detector/ui/sections/history.py:15-23 | minutes and seconds lie in 0..59, hours·3600 + minutes·60 + seconds = ms div 1000, and hours > 0 iff at least an hour; also ui/tabs/history.py:13-18 and ui/tabs/stats.py:9-14 |
| TimeFormat.FormatTimeFields | bb_detector/ui/tabs/history.py:13-21 | from one hour on, three fields (hours, two-digit minutes, two-digit seconds); below, two (minutes, two-digit seconds); each reads back as its part |
| TimeFormat.FormatTimeRoundTrip | bb_detector/ui/tabs/stats.py:9-17 | for ms ≥ 0 the text reads back as ms div 1000 seconds |
| TimeFormat.FormatTimeExamples | bb_detector/ui/sections/history.py:15-23 | 3723000 → "1:02:03" and 65000 → "1:05" |
| Recent.Reverse | bb_detector/ui/sections/history.py:204 | `reversed` keeps the length and puts element i at position n-1-i |
| Recent.LastNewestFirst | bb_detector/ui/tabs/history.py:130 | `reversed(xs[-n:])` has min(len, n) entries, newest first |
| Recent.NewestOnTop | bb_detector/ui/tabs/stats.py:145 | recording an entry puts it on top and pushes the rest down, dropping the oldest when full |
| Recent.Shown | bb_detector/ui/tabs/history.py:110-146 | the placeholder for no records, else the last n newest first, with the newest record on top |
| HistorySection.SessionCardOf | bb_detector/ui/sections/history.py:170-182 | the card's texts read back as the death count, the elapsed seconds and the numbers of boss fights and milestones |
| HistorySection.ListsOf | bb_detector/ui/sections/history.py:184-307 | the last 10 milestones, 5 stats, 5 boss fights and 10 deaths, newest first, or each list's placeholder |
| HistorySection.BossLabel | bb_detector/ui/sections/history.py:280 | the label is the boss name iff the name is present and non-empty, and is never empty |
| HistorySection.DeleteRequest | bb_detector/ui/sections/history.py:317-335 | the delete callbacks receive the id iff it is truthy |
| HistoryTab.ListsOf | bb_detector/ui/tabs/history.py:110-205 | the last 10 milestones, 10 deaths and 5 boss fights, newest first, or each list's placeholder |
| HistoryTab.MilestoneName | bb_detector/ui/tabs/history.py:220-222 | a name exists iff the stripped input is non-empty, and it is stripped |
| HistoryTab.MilestoneNameIgnoresPadding | bb_detector/ui/tabs/history.py:220 | whitespace around the typed name does not change the milestone |
| HistoryTab.HistoryTab.constructor | bb_detector/ui/tabs/history.py:27-41 | the selected icon starts as ★ and nothing has been added or deleted |
| HistoryTab.HistoryTab.OnIconChange | bb_detector/ui/tabs/history.py:211-213 | the picked icon is remembered |
| HistoryTab.HistoryTab.OnAddMilestone | bb_detector/ui/tabs/history.py:215-229 | a blank or missing input does nothing; otherwise the stripped name and the picker's icon (★ without a picker) go to the callback and the input is cleared |
| HistoryTab.HistoryTab.OnDeleteMilestoneClick | bb_detector/ui/tabs/history.py:231-235 | the callback receives the id only when it is truthy |
| StatsTab.StatsList | bb_detector/ui/tabs/stats.py:136-145 | the last 10 entries, newest first, or "No stats recorded" |
| StatsTab.ThirdRow | bb_detector/ui/tabs/stats.py:165-173 | the extra row exists iff echoes > 0, insight > 0 or notes are non-empty, and holds exactly those items |
| StatsTab.CollectStats | bb_detector/ui/tabs/stats.py:179-190 | the dict always has exactly the ten stat keys |
| StatsTab.DefaultsWithoutWidgets | bb_detector/ui/tabs/stats.py:179-188 | with no widgets, level is 4, vitality, endurance, strength, skill and arcane 9, bloodtinge 5, echoes and insight 0, notes empty |
| StatsTab.WidgetValuesPassThrough | bb_detector/ui/tabs/stats.py:180-189 | with every widget present, each stat is its widget's value |
| StatsTab.StatsTab.constructor | bb_detector/ui/tabs/stats.py:35-45 | no stats and nothing submitted or deleted |
| StatsTab.StatsTab.Update | bb_detector/ui/tabs/stats.py:120-123 | the list shown is the given one |
| StatsTab.StatsTab.OnAddStats | bb_detector/ui/tabs/stats.py:177-196 | the collected dict goes to the callback, then the notes field, if present, is cleared |
| StatsTab.StatsTab.OnDeleteStatsClick | bb_detector/ui/tabs/stats.py:198-202 | the callback receives the id only when it is truthy |
| Labels.MonitorRoundTrip | bb_detector/ui/sections/setup.py:505-522 | "Display {m+1}" parsed as int(last token) - 1 gives back m for every monitor index |
| Labels.FpsRoundTrip | bb_detector/ui/tabs/settings.py:178-205 | str(fps) parsed by int() gives back fps |
| Labels.CooldownRoundTrip | bb_detector/ui/sections/setup.py:512-530 | "{int(c)} sec" parsed by float(first token) gives back c truncated toward zero, so a whole cooldown comes back unchanged |
| Labels.MonitorWidgetRoundTrip | bb_detector/ui/tabs/settings.py:172-202 | an integer monitor setting shown in the monitor widget reads back unchanged |
| Labels.CooldownWidgetRoundTrip | bb_detector/ui/tabs/settings.py:184-212 | a numeric cooldown shown in its widget reads back truncated to whole seconds |
| Labels.FpsWidgetRoundTrip | bb_detector/ui/tabs/settings.py:176-205 | an integer frame rate shown in its widget reads back unchanged |
| RegionPanel.RegionGetOfEntry | bb_detector/ui/sections/setup.py:267-295 | a region setting is the stored region dict's entry, or the default when it is missing or None |
| RegionPanel.RegionForCapture | bb_detector/ui/sections/setup.py:298-311 | the capture region is window-relative iff the stored window name is truthy, and none of its entries is None; ui/tabs/calibration.py:169-191 is the same rule |
| RegionPanel.DisplayOf | bb_detector/ui/sections/setup.py:265-284 | a window name with positive w and h fractions shows its percentages, otherwise "(no region)"; without a name, a positive absolute size shows "Absolute", otherwise "Full screen"; the display names a window iff the capture is window-relative |
| RegionPanel.ClearedRegionIsFullScreen | bb_detector/ui/sections/setup.py:393-397 | with the cleared {0, 0, 0, 0} region stored, the capture takes the all-zero rectangle and the display reads "Full screen" |
| RegionPanel.Instruction | bb_detector/ui/sections/setup.py:550-554 | step -1 or 2 clears the instruction line; any other step shows the message |
| RegionPanel.LiveRunCounts | bb_detector/ui/sections/setup.py:570-575 | from a counter below 10, n passes with live preview on run the preview (c+n) div 10 times and leave the counter at (c+n) mod 10 |
| Setup.CollectSettings | bb_detector/ui/sections/setup.py:501-516 | a setting exists iff its widget exists; collecting fails iff the monitor or cooldown text cannot be parsed |
| Setup.ShowSettings | bb_detector/ui/sections/setup.py:520-530 | showing fails iff an existing monitor or cooldown widget gets a setting whose text conversion raises; otherwise no widget is added or removed, each existing one of the three takes the monitor label, the game or the cooldown label, and every other widget keeps its value |
| Setup.LoadFromConfig | bb_detector/ui/sections/setup.py:518-530 | loading fails iff an existing monitor widget meets a stored monitor that is not an int or bool, or an existing cooldown widget meets a non-numeric stored cooldown; otherwise no widget is added or removed and an existing game widget shows the stored game (default "Bloodborne") |
| Setup.ShowThenCollect | bb_detector/ui/sections/setup.py:501-530 | settings shown and collected again give back the monitor and the game, and the cooldown truncated to whole seconds |
| Setup.ShownWidgets | bb_detector/ui/sections/setup.py:520-530 | after showing, the three widgets hold the monitor label, the game and the cooldown label |
| Setup.CollectAll | bb_detector/ui/sections/setup.py:503-516 | with all three widgets readable, the collected dict holds exactly the three values read |
| Setup.LoadThenCollect | bb_detector/ui/sections/setup.py:518-530 | a load followed by a collect preserves the monitor, the game and a whole-second cooldown |
| Setup.LoadDefaultsThenCollect | bb_detector/ui/sections/setup.py:518-530 | with no detection or game settings stored, a load and a collect give the defaults monitor 0, game "Bloodborne" and cooldown 5.0 |
| Setup.SetupSection.constructor | bb_detector/ui/sections/setup.py:41-52 | no pending updates, live preview off, counter 0 |
| Setup.SetupSection.OnRegionProgress | bb_detector/ui/sections/setup.py:381-383 | the progress report waits in its slot |
| Setup.SetupSection.OnRegionSelected | bb_detector/ui/sections/setup.py:385-387 | the region waits in its slot |
| Setup.SetupSection.OnRegionCancel | bb_detector/ui/sections/setup.py:389-391 | the cancel is reported as an empty message at step -1 |
| Setup.SetupSection.OnClearRegion | bb_detector/ui/sections/setup.py:393-397 | the all-zero region {0, 0, 0, 0} is saved |
| Setup.SetupSection.CaptureAndTest | bb_detector/ui/sections/setup.py:401-424 | the stored region is captured; a failed capture reports "Capture failed" and keeps the old frame; otherwise the frame is kept and tested |
| Setup.SetupSection.UpdateLiveDebug | bb_detector/ui/sections/setup.py:448-484 | the run is counted; a failed capture changes nothing else; otherwise the result line shows match or no match without a confidence, and the frame is not kept |
| Setup.SetupSection.ToggleLivePreview | bb_detector/ui/sections/setup.py:433-446 | live preview flips; when the preview button exists the result line shows the new ON/OFF status, otherwise it keeps what it showed |
| Setup.SetupSection.Hide | bb_detector/ui/sections/setup.py:584-590 | live preview is always off afterwards |
| Setup.SetupSection.Update | bb_detector/ui/sections/setup.py:543-575 | each pending slot is consumed once and both end empty; the progress step sets or clears the instruction; a pending region is saved, clears the instruction and is captured and tested; with live preview on the counter steps and every 10th pass runs the preview with its own capture and test, with it off the counter is untouched; the result line ends with the live result when the preview fired and its capture succeeded, else with the pending region's test result or capture failure, else unchanged |
| Calibration.CalibrationTab.constructor | bb_detector/ui/tabs/calibration.py:28-39 | no pending updates, live debug off, counter 0 |
| Calibration.CalibrationTab.OnRegionProgress | bb_detector/ui/tabs/calibration.py:306-309 | the progress report waits in its slot |
| Calibration.CalibrationTab.OnRegionSelected | bb_detector/ui/tabs/calibration.py:311-314 | the region waits in its slot |
| Calibration.CalibrationTab.OnRegionCancel | bb_detector/ui/tabs/calibration.py:316-318 | the cancel is reported as an empty message at step -1 |
| Calibration.CalibrationTab.OnClearRegion | bb_detector/ui/tabs/calibration.py:320-324 | the all-zero region is saved |
| Calibration.CalibrationTab.CaptureAndTest | bb_detector/ui/tabs/calibration.py:326-345 | a failed capture reports the failure and keeps the old frame without testing; otherwise the frame is kept and the test result shown |
| Calibration.CalibrationTab.UpdateLiveDebug | bb_detector/ui/tabs/calibration.py:376-414 | the run is counted; a failed capture changes nothing else; otherwise the result line shows match or no match without a confidence, and the frame is not kept |
| Calibration.CalibrationTab.ToggleLivePreview | bb_detector/ui/tabs/calibration.py:362-374 | live debug flips; when the debug button exists the result line shows the new ON/OFF status, otherwise it keeps what it showed |
| Calibration.CalibrationTab.Update | bb_detector/ui/tabs/calibration.py:272-304 | both pending slots are consumed and end empty; the progress step sets or clears the instruction; a pending region is saved, clears the instruction and is captured and tested; with live debug on the counter steps and every 10th pass runs the live test with its own capture and test, with it off the counter is untouched; the result line ends with the live result when the live test fired and its capture succeeded, else with the pending region's test result or capture failure, else unchanged |
| SettingsView.ProfileText | bb_detector/ui/tabs/settings.py:160 | the profile name, or "Not connected" when it is None or empty |
| SettingsView.StatusText | bb_detector/ui/tabs/settings.py:162-168 | "Connected" iff connected, "Disconnected" iff not |
| SettingsView.Collect | bb_detector/ui/tabs/settings.py:200-202 | one widget read: it adds its key iff the widget exists, with the parsed value, and fails iff the parse fails |
| SettingsView.CollectSettings | bb_detector/ui/tabs/settings.py:196-223 | collecting fails iff the monitor, frame-rate or cooldown text cannot be parsed |
| SettingsView.CollectedKeys | bb_detector/ui/tabs/settings.py:198-221 | a setting exists for exactly the widgets that exist, and for nothing else |
| SettingsView.CollectedPassThrough | bb_detector/ui/tabs/settings.py:207-221 | threshold, start-minimized, always-on-top and opacity are saved as their widgets hold them |
| SettingsView.Show | bb_detector/ui/tabs/settings.py:172-174 | one widget write: only an existing widget changes, and it takes the shown text |
| SettingsView.ShowSettings | bb_detector/ui/tabs/settings.py:170-186 | showing fails iff an existing monitor, frame-rate or cooldown widget gets a setting whose text conversion raises; otherwise no widget is added or removed and widgets other than the four keep their values |
| SettingsView.LoadFromConfig | bb_detector/ui/tabs/settings.py:170-186 | loading never adds or removes widgets, and an existing threshold widget takes the stored threshold (default 0.75) as it is |
| SettingsView.LoadThenCollect | bb_detector/ui/tabs/settings.py:170-212 | a load followed by a collect preserves the monitor, an integer frame rate, the threshold and a whole-second cooldown |
| SettingsView.LoadDefaultsThenCollect | bb_detector/ui/tabs/settings.py:170-186 | with no detection settings stored, a load and a collect give the defaults monitor 0, frame rate 10, threshold 0.75 and cooldown 5.0 |
| SettingsView.ShownWidgets | bb_detector/ui/tabs/settings.py:170-186 | after loading, the four widgets hold the monitor label, the frame-rate text, the threshold and the cooldown label |
| SettingsView.CollectLoaded | bb_detector/ui/tabs/settings.py:200-212 | readable monitor, frame-rate, threshold and cooldown widgets give those four values |
| SettingsView.ShowThenCollect | bb_detector/ui/tabs/settings.py:170-212 | settings shown and collected again give back the monitor, an integer frame rate and the threshold, and the cooldown truncated to whole seconds |
| SettingsView.SettingsTab.constructor | bb_detector/ui/tabs/settings.py:20-29 | no hotkey is being recorded |
| SettingsView.SettingsTab.StartHotkeyRecording | bb_detector/ui/tabs/settings.py:225-229 | the button starts recording and, if it exists, reads "Press keys..." |

## Left out

- OCR and image processing are not modelled. This covers tesseract, the cv2 grayscale and thresholds, and PIL. A frame is the text OCR recognised in its two thresholded images (or the error OCR raised). Whether OCR is installed is a constant of the detector.
- `check_death_region` (detector.py) is not modelled, because its crop is numpy slicing of the image.
- Screen and window capture through Quartz, win32 and psutil is not modelled. The window lists are inputs, and the image size is a parameter of the macOS capture. Bitmap conversion and `_get_window_at_point_windows` consist only of operating-system calls.
- Cursor-position queries are not modelled: the cursor is a parameter of the corner selector.
- DearPyGui rendering is not modelled: colours, textures, previews, buttons and the percent and float texts (`{:.1f}%`, `{:.2f}`, `{:,}`). The region display is modelled as which of the four texts appears and the values it shows, not as its characters. The detection-result line is modelled as the outcome, not as its text.
- `WM_PAINT` in the overlay only draws, so it is not modelled.
- The pygame/subprocess overlay path (`_show_subprocess`) is not modelled. It runs the same drag rule in another process and passes the result through a temporary file.
- The asyncio loop, `asyncio.sleep`, the WebSocket client and HTTP requests are not modelled. Server messages are recorded in a log, and "the loop exists" is a flag.
- Locks, daemon threads and the hotkey listener's lifecycle (`start`/`stop`) are not modelled. The model is sequential: each callback runs to completion.
- File I/O is not modelled. `Config.load` receives what reading the file produced, and `Config.save` is left out.
- Unicode: upper-casing, lower-casing and `isalnum` are exact for ASCII and the basic Cyrillic block, which covers the built-in keywords. Other characters are treated as neither letters nor digits.
- Text.IsSpace: only the six ASCII whitespace characters count as space; Python's `isspace` and `strip` also treat `\x1c`-`\x1f`, `\x85`, `\xa0` and the Unicode space separators as whitespace.
- Dictionary iteration order is not modelled. Settings maps are unordered. The server rename list is given in the order of the source's map literal.
- Aliasing between `Config._data` and callers is not modelled. `get` returns a value, not a reference into the tree.
- `StateManager.__getattr__` and `to_dict` are read-only views that the model reads directly, so they are not modelled separately.
- Floating point: Python's floats are modelled as exact reals, so fractions, times, cooldowns and confidences carry no IEEE rounding. Where Python's doubles round, results can differ; for example `int(29/100 * 100)` is 28 in Python but 29 in the model, so a stored region can come back one pixel short (see Corners.CornerRegionRoundTrip).
- Geometry.ScaleUndoesFractions: holds in exact arithmetic only; with Python's doubles, `int(0.29 * 100)` is 28, so a scaled side can come back one pixel short.
- Corners.CornerRegionRoundTrip: holds in exact arithmetic only; with Python's doubles, corners (0,0) and (29,29) in a 100 by 100 window resolve to a 28-pixel width and height.
- ConfigStore.PyEq: numbers compare by value across bool, int and float only at the top level. Lists and dicts compare with structural equality of the model's values, so a number inside them is not compared across types: Python's `[0] == [False]` and `{'a': 1} == {'a': 1.0}` are true, but the model says false.
- Detector.LoadSettings: a float streak such as 2.5 works in Python, where `>= 2.5` confirms on the third hit; the model uses the default 2 for it.
- Detector.LoadSettings: a string or null streak makes Python's `>=` raise inside `check_death`; the model uses the default 2.
- Detector.LoadSettings: a string `keywords` is iterated character by character in Python, each character acting as a keyword, and a list holding a non-string raises when that keyword is matched (bb_detector/detector.py:218); the model uses the default keywords for anything but a list of strings.
- Detector.LoadSettings: a `games.<name>` entry that is not a dict makes `game_config.get` raise at once in the constructor (bb_detector/detector.py:69); the model uses the default keywords and OCR options.
- Detector.LoadSettings: a `current_game` that is not a string is formatted by the f-string into the key (bb_detector/detector.py:66), so `5` looks up `games.5`; the model looks up `games.Bloodborne`.
- Detector.LoadSettings: a `tesseract_config` that is not a string is passed on by Python; the model uses the default options.
- RegionPanel.Positive: a non-number is treated as not positive, whereas Python's `>` raises on such a value.
- Labels.MonitorText: a float monitor gives no text, whereas Python adds one and shows it (1.5 shows "Display 2.5"). A string, None, list or dict monitor makes `monitor + 1` raise in Python, which the model's `None` matches.
- Labels.CooldownText: a cooldown stored as a string gives no text, whereas Python's `int("5")` gives `5 sec` (and `int("5.5")` raises).
- Labels.FpsText: a frame rate that is not an int gives no text; Python shows `str(fps)`, which `int()` then fails to read back for a float.
- Text.ParseReal: only reads decimal numerals (optional sign, digits, optional fraction). Exponents, `inf`, `nan` and digit-group underscores (`float("1_0.5")`) are not modelled.
- Text.ParseInt: digit-group underscores are not accepted, whereas Python's `int("1_0")` is 10.
- Setup.SetupSection.Update: `on_save_region` writes the settings outside this code, so the settings after the save are a parameter of `Update`.
- Calibration.CalibrationTab.Update: `on_save_region` writes the settings outside this code, so the settings after the save are a parameter of `Update`.
- Setup.SetupSection.CaptureAndTest: where Python raises partway through a widget update, the model states the outcome of the whole handler, not the partial update.
- Setup.ShowSettings: when the cooldown text raises, Python has already written the monitor and game widgets (bb_detector/ui/sections/setup.py:520-526); the model returns `None` for the whole update and keeps none of those writes.
- Setup.LoadFromConfig: when a conversion raises partway, the widgets Python already wrote keep their new text; the model returns `None` for the whole load.
- SettingsView.ShowSettings: when the frame-rate or cooldown text raises, Python has already written the earlier widgets among monitor, frame rate and threshold (bb_detector/ui/tabs/settings.py:172-182); the model returns `None` for the whole update and keeps none of those writes.
- SettingsView.LoadFromConfig: when a conversion raises partway, the widgets Python already wrote keep their new values; the model returns `None` for the whole load.
- Setup.SetupSection.Update: the frame grab and the detection test are given as functions of the region and the frame, one pair for the pending region's capture and one for the live run. Their effects elsewhere, such as the streak counter that `check_death` steps (bb_detector/main.py:328-330), are not modelled here.
- Calibration.CalibrationTab.Update: the frame grab and the detection test are given as functions of the region and the frame, one pair for the pending region's capture and one for the live run. Their effects elsewhere, such as the detector's streak counter, are not modelled here.
- Detector.DeathDetector.TestDetection: the report's fuzzy flag is the setting's truth value, because the model keeps the fuzzy setting as a bool; Python reports `self.fuzzy_matching` as stored (for example `1` or `"yes"`).
- Setup.CollectSettings: when a later widget raises, the dict Python had partly built is discarded; the model returns `None` for the whole collection.
- SettingsView.CollectSettings: when a later widget raises, the dict Python had partly built is discarded; the model returns `None` for the whole collection.
- HistoryTab.HistoryTab.OnAddMilestone: `_selected_icon` is recorded by `OnIconChange` but not used by `_on_add_milestone`; the icon comes from the picker widget, as in the source.
- The setup section's `_start_hotkey_recording` is the same as the settings tab's, which `SettingsView.SettingsTab.StartHotkeyRecording` models.
- `show` and `hide` of the history section, and `show` of the setup section, only toggle widget visibility, so they are not modelled.
- The play, compact, tray and dialog views, the theme, `region_selector.py`, `tesseract_utils.py`, `platform_utils.py` and the build scripts are not part of this model.
- The App constructor call in `main.py` does not match `App.__init__`, and `tests/test_detector.py` checks a `threshold` attribute that the detector never defines. Both are stale, and neither is modelled.
