# A verified model of the radio core of seraphs-subghz-tool

seraphs-subghz-tool is a sub-GHz radio tool for the M5StickC Plus with a
CC1101 transceiver. This project models its radio core.

- **Radio facade** (`cc1101.dfy`, module `Radio`). A class `CC1101` holds the
  tuned frequency, the transceiver's RX/TX state, the direction of the data
  pin GDO0 and the pulses written to it. It models:
  - `recordSignal`: turns the polled pin levels into inter-edge durations;
  - `replaySignal`: writes them back as alternating levels;
  - the spectrum sweep, the detection threshold and the clamped receive
    length.

  The capture loop is also given as a pure function, `RecordCapture`. A
  reference definition, `Waveform`, says which level changes the polls
  show. The lemmas tie the two together: what is recorded, when the loop
  stops, and that replaying reproduces the capture.
- **Menu** (`menu.dfy`, module `Menu`). There are three buttons. Each is a pure
  transition on a `MenuView` record, and the class `MenuSystem` is proved to
  follow them. Lemmas cover main-menu navigation, entry selection, back
  navigation, the frequency cycle and the Settings and About screens.
- **Operation-mode controller** (`operations.dfy`, module `Operations`). The
  class `SubGhzOperations` holds:
  - the 120-entry RSSI ring, the 120-point spectrum and the 512-entry
    recording buffer, as arrays;
  - its scalar members, as one `Scalars` record.

  Each call of `Update` does two things. First it applies the resets for a
  mode just entered. Then it runs the handler of the current mode. Every
  handler is proved against a step function on `Scalars` (`ScanTick`,
  `ListenTick`, `RecordTick`, ...). Three class invariants also hold:

  - the ring holds the readings since Scanning was entered (`RingOf`);
  - the Listening counter is the number of times the signal appeared
    (`RisingEdges`);
  - a stored recording's count is the positive prefix of the buffer
    (`PositivePrefixLen`).

  `mapRSSIToBar` and the slot arithmetic of the waveform chart are modelled
  too.
- **Sketch** (`sketch.dfy`, module `Sketch`). This covers:
  - the splash screen's conversion of the 240x135 24-bit image to RGB565
    rows, with nested loops over a 240-entry `lineBuffer`;
  - the redraw decision of `loop()`;
  - the sketch's three global objects, as a `Device` class.
- **Shared pieces** (`common.dfy`, module `Common`): an option type, the 32-bit
  `unsigned long` millisecond clock, and C's truncating `/` and `%`.

Hardware is passed in as values. An `Environment` record gives what one call
of `update()` would read:

- `millis()` twice: once for the throttle test, once for the stored stamp;
- the RSSI readings, and the reading at each frequency of a sweep;
- the frame length the driver reports;
- the GDO0 capture: the start time, the first level read, and then one
  `(us, level)` poll per pass of the loop;
- the button-A press that the replay handler sees.

The `unsigned long` millisecond arithmetic of the handlers wraps modulo 2^32
(`ElapsedMs`). C's `/` and `%` truncate toward zero (`CDiv`, `CMod`). The
splash packing is computed on bit-vectors.

Two notes on the model:

- **Button A is read twice per pass.** `loop()` calls `menu.update()`, and
  it does `M5.update()` once and then reads the buttons
  (src/menu_system.cpp:31-34). Later in the same pass, `updateReplay` reads
  `M5.BtnA.wasPressed()` again (src/subghz_operations.cpp:298). Hence
  `Device.Loop` hands the same A press to both the menu and the controller.
- **The code is followed where it says more than its comments.**
  `updateListen` keeps its "last signal state" in a function-static
  variable. The model keeps it as the member `lastSignalState`. It is reset
  exactly when the source resets it: when `forceListenDraw` is set on entry
  to the tick.

## Model

| member | source | states |
|---|---|---|
| Common.ElapsedMs | src/subghz_operations.cpp:84 | `now - last` on two `unsigned long` values: the plain difference when `last <= now`, `2^32 - (last - now)` after a roll-over, and in both cases `last + d == now` modulo 2^32 |
| Common.CDiv | src/subghz_operations.cpp:402 | C's integer quotient: the Euclidean one for a non-negative dividend, its negation of the magnitudes for a negative one |
| Common.CMod | src/subghz_operations.cpp:93 | C's remainder: the mathematical one for a non-negative dividend, in `[0, |b|)`; non-positive and above `-|b|` for a negative dividend |
| Common.CDivModIdentity | src/subghz_operations.cpp:93 | the two agree as C requires: `CDiv(a,b) * b + CMod(a,b) == a` |
| Radio.SignalDetected | src/cc1101_interface.cpp:88-91 | the detection test on one RSSI reading; its contract is stated by `SignalDetectedThreshold` |
| Radio.SignalDetectedThreshold | src/cc1101_interface.cpp:88-91 | detection fires exactly for readings of -69 dBm and above (strictly above -70), and a stronger reading never fires less |
| Radio.ReceiveData | src/cc1101_interface.cpp:93-99 | the result is 0 or in `(0, maxLen]`; a non-zero result is the length the driver reported; a reported length in `(0, maxLen]` is returned as is, anything else (or no frame) gives 0 |
| Radio.CaptureLoop | src/cc1101_interface.cpp:120-134 | the poll loop of `recordSignal` from one pass on, with its `lastTime`, `lastState` and the durations so far; its contract is stated by `CaptureStep`, `LoopRecordsWaveform` and `LoopStopsNoEarlier` |
| Radio.RecordCapture | src/cc1101_interface.cpp:111-134 | the whole capture from the start time and first level; its contract is stated by `RecordCaptureIsWaveform`, `RecordCaptureStopReason` and `RecordCaptureDurationsFit` |
| Radio.CaptureStep | src/cc1101_interface.cpp:120-133 | one pass of the capture loop: when the loop cannot go on it stops with the reason (full, out of polls, deadline) and the durations so far; otherwise it records exactly the change the reference waveform shows at that poll and stops on silence |
| Radio.LoopRecordsWaveform | src/cc1101_interface.cpp:120-134 | from any pass on, the loop records exactly the hold times of the waveform of the polls it reads, at most `maxSamples`, and its stop reason holds (full iff the buffer is full, deadline reached, silence seen) |
| Radio.LoopStopsNoEarlier | src/cc1101_interface.cpp:120-133 | the loop does not stop early: every poll it read was before the deadline with room in the buffer, and silence occurred at most on the last one |
| Radio.WaveformLevelsAlternate | src/cc1101_interface.cpp:123-128 | the recorded pulses alternate in level, starting with the level read when the capture began |
| Radio.WaveformHoldsBounded | src/cc1101_interface.cpp:113-125 | with a clock that never runs backwards every hold time read before the deadline is in `[0, 5 000 000)` us; with one that always advances every hold time is positive |
| Radio.RecordCaptureIsWaveform | src/cc1101_interface.cpp:111-128 | a capture records one duration per observed level change, in order, the first measured from the start of the capture, at most `maxSamples` of them |
| Radio.RecordCaptureStopReason | src/cc1101_interface.cpp:114-133 | a capture stops at capacity, at the 5 s deadline, or after more than 100 000 us without a change once at least one change is recorded, and not before |
| Radio.RecordCaptureDurationsFit | src/cc1101_interface.cpp:124-125 | each `unsigned long` difference stored into the `int` array is in `[0, 5 000 000)`, hence fits; with an advancing clock it is positive |
| Radio.ReplayFrom | src/cc1101_interface.cpp:143-148 | the `for` loop of `replaySignal` from a given level: one write per timing, then a toggle; its contract is stated by `ReplayPulsesShape` and `ReplayReproducesCapture` |
| Radio.ReplayPulses | src/cc1101_interface.cpp:141-148 | the loop started LOW; its contract is stated by `ReplayPulsesShape` and `ReplayReproducesCapture` |
| Radio.ReplayPulsesShape | src/cc1101_interface.cpp:143-148 | replay writes exactly one level per timing, alternating and starting LOW, each followed by a delay of its timing |
| Radio.ReplayReproducesCapture | src/cc1101_interface.cpp:111-148 | round trip: replaying a capture reproduces the observed hold times, with every level inverted when the capture began HIGH; it equals the observed waveform exactly when the capture began LOW or recorded nothing |
| Radio.CC1101.constructor | src/cc1101_interface.cpp:4-7 | a new facade is tuned to 433.92 MHz and not initialised |
| Radio.CC1101.SetFrequency | src/cc1101_interface.cpp:57-64 | after `setFrequency(f)`, `getFrequency()` returns `f` |
| Radio.CC1101.SetRxMode | src/cc1101_interface.cpp:84-86 | the transceiver is left receiving |
| Radio.CC1101.SetTxMode | src/cc1101_interface.cpp:101-103 | the transceiver is left transmitting |
| Radio.CC1101.ScanSpectrum | src/cc1101_interface.cpp:74-82 | the sweep fills entries `0..k-1` with `k <= numPoints`, entry `i` being the strength read once tuned to `startFreq + i*step`, every such frequency at most `endFreq`, and stops early only past `endFreq`; later entries are unchanged and the radio is left on the last frequency |
| Radio.CC1101.RecordSignal | src/cc1101_interface.cpp:111-137 | the array's first entries are the durations of `RecordCapture`, the rest unchanged, the pin is an input, and the result is true iff more than 10 changes were recorded |
| Radio.CC1101.ReplaySignal | src/cc1101_interface.cpp:139-152 | the pin receives exactly the pulses of `ReplayPulses` for the first `numSamples` timings; afterwards the pin is an input and the radio receives |
| Menu.PressA | src/menu_system.cpp:103-142 | button A on the fields; its contract is stated by `MainMenuSelect`, `SettingsScreen`, `AboutScreen` and `ButtonsKeepWellformed` |
| Menu.PressB | src/menu_system.cpp:144-158 | button B on the fields; its contract is stated by `MainMenuNavigation`, `BackNavigation` and `ButtonsKeepWellformed` |
| Menu.PressPower | src/menu_system.cpp:160-171 | the power button on the fields; its contract is stated by `MainMenuNavigation`, `FrequencyCycle`, `SettingsScreen`, `AboutScreen` and `ButtonsKeepWellformed` |
| Menu.Buttons | src/menu_system.cpp:89-101 | A, then B, then Power, each when pressed; its contract is stated by `ButtonsKeepWellformed` and `MenuSystem.HandleButtons` |
| Menu.InitialMenuFacts | src/menu_system.cpp:3-21 | a fresh menu is on the main menu, idle, with valid selections and the selected frequency 433.92 MHz |
| Menu.ButtonsKeepWellformed | src/menu_system.cpp:103-171 | no button takes `menuSelection` out of `[0,6)`, `settingsSelection` out of `[0,2)` or `freqIndex` out of `[0,4)` |
| Menu.MainMenuNavigation | src/menu_system.cpp:154-163 | on the main menu B sets the selection to `(s+1) % 6` and Power to `(s+5) % 6`, nothing else changes, and each undoes the other |
| Menu.MainMenuSelect | src/menu_system.cpp:105-132 | on the main menu A enters the (screen, mode) pair of the selected entry; entry 5 (Settings) also resets `settingsSelection` to 0; selection, frequency and module type are kept |
| Menu.BackNavigation | src/menu_system.cpp:146-153 | B from About returns to Settings with the mode unchanged; from any other screen but the main menu it goes to the main menu, idle |
| Menu.FrequencyCycle | src/menu_system.cpp:167-169 | on a mode screen Power sets `freqIndex := (freqIndex+1) % 4`, and four presses restore it |
| Menu.SettingsScreen | src/menu_system.cpp:133-166 | in Settings A on entry 0 toggles the module type (twice is the identity), A on entry 1 opens About, and Power toggles the entry modulo 2 |
| Menu.AboutScreen | src/menu_system.cpp:103-171 | About ignores A and Power |
| Menu.MenuSystem.constructor | src/menu_system.cpp:3-21 | the fields are those of the initial view |
| Menu.MenuSystem.SetMode | src/menu_system.cpp:69-75 | `getMode()` returns the mode last set |
| Menu.MenuSystem.ButtonA | src/menu_system.cpp:103-142 | the new fields are `PressA` of the old ones, and stay valid |
| Menu.MenuSystem.ButtonB | src/menu_system.cpp:144-158 | the new fields are `PressB` of the old ones, and stay valid |
| Menu.MenuSystem.ButtonPower | src/menu_system.cpp:160-171 | the new fields are `PressPower` of the old ones, and stay valid |
| Menu.MenuSystem.HandleButtons | src/menu_system.cpp:89-101 | A, then B, then Power, each only when pressed |
| Operations.ArduinoMap | src/subghz_operations.cpp:402 | Arduino's `map` with C's truncating division; its contract is stated by `MapRSSIToBar` |
| Operations.MapRSSIToBar | src/subghz_operations.cpp:399-403 | the bar count is in `[0,10]`: 0 below -100 dBm, 10 above -30 dBm, and `(rssi+100)/7` in between, which is Arduino's `map` with C's division |
| Operations.MapRSSIToBarMonotone | src/subghz_operations.cpp:399-403 | a stronger signal never lights fewer bars |
| Operations.IndexAfterTicks | src/subghz_operations.cpp:92-93 | after `n` scan ticks from `i` the history index is `(i + n) % 120`, always inside the buffer; each step is `IndexFollowsCount`, the fact that keeps the class's `historyIndex == |scanSamples| % 120` |
| Operations.FullTurn | src/subghz_operations.cpp:93 | 120 more scan ticks bring the index back where it was, so every 120 ticks from entry it is at 0 again |
| Operations.RingHoldsRecent | src/subghz_operations.cpp:92-93 | the ring keeps the last 120 readings, reading `j` in slot `j % 120`, and unwritten slots hold -100 |
| Operations.ScanStepTracksRing | src/subghz_operations.cpp:92-93 | a scan tick writes the reading into the slot the index points at, and the index follows the number of readings modulo 120 |
| Operations.WaveformSlotInBounds | src/subghz_operations.cpp:358 | the chart's slot expression, as written and corrected, is always inside the buffer; its dividend is never negative, so C's `%` is the mathematical one |
| Operations.WaveformSlotAsWrittenOfColumn | src/subghz_operations.cpp:358 | as written, column `s < 114` draws the slot of reading `n-114+s` and column 114 the slot of reading `n-120` |
| Operations.WaveformAsWrittenRightColumnIsOldest | src/subghz_operations.cpp:351-358 | as written, with a full ring, columns 0..113 show readings `n-114..n-1` but the rightmost column shows reading `n-120`, the oldest one kept |
| Operations.WaveformAsWrittenMissesNewestReading | src/subghz_operations.cpp:335-358 | as written, at the first frame drawn (two readings in; odd indices are skipped) the rightmost column draws slot 2, still at -100, while the newest reading sits in slot 1, which the corrected slot draws |
| Operations.WaveformChartShowsRecent | src/subghz_operations.cpp:351-358 | with the corrected slot the chart shows the last 115 readings in order, newest on the right, and -100 in columns older than the first reading |
| Operations.ListenStepCounts | src/subghz_operations.cpp:203-223 | one more detector reading is counted exactly when it finds the detector off, and becomes the new level |
| Operations.SteadySignalCountedOnce | src/subghz_operations.cpp:202-206 | a signal that stays present is counted once, and only if it was absent before |
| Operations.RisingEdgesBound | src/subghz_operations.cpp:203-223 | each counted appearance needs an absence before it: twice the count is at most the number of readings, plus one when the signal is present at the end |
| Operations.PositivePrefixLen | src/subghz_operations.cpp:244-251 | the count is the length of the longest prefix of strictly positive entries: all before it positive, the entry at it (if any) not |
| Operations.CountedPrefixIsCapture | src/subghz_operations.cpp:243-251 | after positive durations overwrite a buffer that is zero beyond them, the counted prefix is exactly the durations |
| Operations.EnteredAsWritten | src/subghz_operations.cpp:40-60 | the mode-entry resets as the code writes them; their contract is stated by `ModeEntryResets` |
| Operations.Entered | src/subghz_operations.cpp:40-60 | the corrected resets of Findings row 2: as written, plus a restart of the Recording timer; its contract is stated by `FreshRecordEntryNeverTimesOut` |
| Operations.ModeEntryResets | src/subghz_operations.cpp:40-60 | as written: entering Scanning restarts the index and counter; entering Listening clears the counter and forces a redraw and an immediate tick; entering Idle, Spectrum, Recording or Replaying changes only the recorded mode (the spectrum array is cleared by `EnterMode`); staying in a mode resets nothing |
| Operations.ScanTick | src/subghz_operations.cpp:83-111 | `updateScan` on the scalars; its contract is stated by `HandlersWaitForTheirPeriod` and `ScanTickAdvances` |
| Operations.SpectrumTick | src/subghz_operations.cpp:113-128 | `updateSpectrum` on the scalars; its contract is stated by `HandlersWaitForTheirPeriod` |
| Operations.ListenUpdate | src/subghz_operations.cpp:158-223 | an acting listening tick on the scalars; its contract is stated by `ListenStep` and `ListenTickCounts` |
| Operations.ListenTick | src/subghz_operations.cpp:152-227 | `updateListen` on the scalars; its contract is stated by `HandlersWaitForTheirPeriod` and `ListenTickCounts` |
| Operations.RecordTimerStep | src/subghz_operations.cpp:267-281 | the 30 s Recording timer; its contract is stated by `RecordTimerThirtySeconds` |
| Operations.RecordTick | src/subghz_operations.cpp:229-283 | `updateRecord` on the scalars; its contract is stated by `RecordingIsOneShot` and `CaptureSwitchesToReplay` |
| Operations.RecordMode | src/subghz_operations.cpp:243-281 | the mode `updateRecord` leaves the menu in; its contract is stated by `RecordingIsOneShot`, `CaptureSwitchesToReplay`, `StaleRecordTimerTimesOutAtOnce` and `FreshRecordEntryNeverTimesOut` |
| Operations.HandlersWaitForTheirPeriod | src/subghz_operations.cpp:83-227 | Scan, Spectrum and Listen act only when strictly more than 100, 500 and 50 ms have passed since their stamp, then record the new stamp; otherwise they change nothing |
| Operations.ScanTickAdvances | src/subghz_operations.cpp:88-93 | a scan tick that acts stores the reading as `lastRSSI` and advances the index by one place around the ring |
| Operations.ListenTickCounts | src/subghz_operations.cpp:152-227 | a listening tick that acts adds 1 to the counter exactly when the signal appears, adopts the reading as the level and clears the forced redraw; a signal that stays present is not counted again |
| Operations.RecordTimerThirtySeconds | src/subghz_operations.cpp:268-281 | an unset timer starts at the current stamp; a set one times out exactly when 30 whole seconds have passed, and is then cleared to 0 |
| Operations.RecordingIsOneShot | src/subghz_operations.cpp:229-230 | once a recording exists the Recording handler changes nothing |
| Operations.CaptureSwitchesToReplay | src/subghz_operations.cpp:243-281 | an accepted capture stores its count, marks the recording present and selects Replaying, unless the timer runs out in the same call, which selects Idle |
| Operations.StaleRecordTimerTimesOutAtOnce | src/subghz_operations.cpp:40-60 | as written, for every state in which a timer left running by an earlier visit has seen 30 s pass, re-entering Recording keeps that timer and the first call of the new visit sends the menu to Idle, captured signal or not |
| Operations.FreshRecordEntryNeverTimesOut | src/subghz_operations.cpp:268-281 | with the timer restarted on entry, the first call after entering Recording never times out |
| Operations.SpectrumSweepCoversAllPoints | src/subghz_operations.cpp:115-121 | on exact arithmetic all 120 sweep points lie at most 5 MHz above the base, so the sweep never stops early |
| Operations.SubGhzOperations.constructor | src/subghz_operations.cpp:4-21 | the members get the constructor's initial values; the arrays of the global object start zeroed |
| Operations.SubGhzOperations.ClearHistory | src/subghz_operations.cpp:45-47 | every history slot is -100 |
| Operations.SubGhzOperations.ClearSpectrum | src/subghz_operations.cpp:55-57 | every spectrum entry is -100 |
| Operations.SubGhzOperations.Begin | src/subghz_operations.cpp:23-34 | both arrays at -100, the history index 0, nothing else changed |
| Operations.SubGhzOperations.EnterMode | src/subghz_operations.cpp:36-60 | the scalars are `EnteredAsWritten` of the old ones; on entry to Scanning the ring is cleared, on entry to Spectrum the spectrum is cleared, and otherwise the arrays are unchanged |
| Operations.SubGhzOperations.UpdateScan | src/subghz_operations.cpp:83-111 | the scalars follow `ScanTick`; a tick that acts tunes and starts the receiver and writes the reading at the old index, and the ring keeps holding the readings since entry |
| Operations.SubGhzOperations.UpdateSpectrum | src/subghz_operations.cpp:113-128 | the scalars follow `SpectrumTick`; a tick that acts fills all 120 points with the strength at `base - 5 + i*10/120` MHz |
| Operations.ListenStep | src/subghz_operations.cpp:158-223 | the locals of an acting tick (level reset on a forced redraw, frequency change, flag cleared, counter and level) give `ListenUpdate`: the counter goes up by one exactly when the reading finds the signal absent, the level becomes the reading, the redraw flag ends cleared and the frequency is the one tuned; `receiveData` is called exactly on that rising edge |
| Operations.SubGhzOperations.UpdateListen | src/subghz_operations.cpp:152-227 | the scalars follow `ListenTick`; `receiveData` is called exactly on a rising edge; the counter stays the number of appearances since entry |
| Operations.SubGhzOperations.UpdateRecord | src/subghz_operations.cpp:229-283 | with no recording: tunes and starts the receiver, captures when a signal is detected, the scalars follow `RecordTick` and the mode `RecordMode`; with a recording it changes nothing |
| Operations.SubGhzOperations.RecordTimeout | src/subghz_operations.cpp:267-281 | the timer follows `RecordTimerStep`, and on expiry the menu goes Idle |
| Operations.SubGhzOperations.CaptureSignal | src/subghz_operations.cpp:243-264 | the buffer is overwritten by the capture's durations; the capture is accepted iff more than 10 changes; an accepted one is counted by its positive prefix (all its durations with an advancing clock) and selects Replaying; a rejected one leaves the buffer from entry 10 on as it was |
| Operations.SubGhzOperations.CountRecorded | src/subghz_operations.cpp:244-251 | the count is the positive prefix of the buffer |
| Operations.SubGhzOperations.UpdateReplay | src/subghz_operations.cpp:285-327 | with a recording and A pressed, the radio is tuned to the selected frequency and emits the pulses of the counted prefix, and is left receiving with the pin as input; otherwise nothing is transmitted; `isTransmitting` is false afterwards |
| Operations.SubGhzOperations.UpdatedFrom | src/subghz_operations.cpp:36-81 | what one `update()` leaves: the resets of `EnteredAsWritten` (entering Scanning empties the ring, entering Spectrum floors the chart), then `Handled` for the menu's mode on the selected frequency; the contract of `Update` and `Device.Loop` |
| Operations.SubGhzOperations.Update | src/subghz_operations.cpp:36-81 | `UpdatedFrom` the state and array contents before the call and the menu it read: the as-written mode-entry resets, then the handler of the menu's mode |
| Operations.SubGhzOperations.Dispatch | src/subghz_operations.cpp:62-80 | `Handled`: each mode runs its own handler, Idle none. Per mode: the scalars after the tick; the ring is `RingOf` the scan readings and untouched outside Scanning; the chart holds one reading per point when due and is untouched otherwise; the listen counter counts rising edges; the timing buffer is `Overwrite` of its old contents by `RecordCapture`'s durations when a Recording pass with no recording sees a signal, and is untouched otherwise; Replaying transmits `ReplayPulses` of the recorded prefix with a recording and A, and nothing otherwise; no other mode transmits; only Listening returns a frame; only Recording changes the menu |
| Sketch.Pack565 | src/main.cpp:49 | the packing as stored in the `uint16_t` buffer; its contract is stated by `Pack565Fields`, `Pack565FieldsDisjoint`, `UnpackPack` and `PackUnpack` |
| Sketch.Pack565Int | src/main.cpp:49 | the packing as C evaluates it on `int`; its contract is stated by `Pack565FitsUint16` |
| Sketch.Pack565FitsUint16 | src/main.cpp:49 | the packed value, computed on `int`, is below 2^16, so storing it in the `uint16_t` buffer truncates nothing |
| Sketch.Pack565Fields | src/main.cpp:49 | bits 15..11 are `r>>3`, bits 10..5 are `g>>2`, bits 4..0 are `b>>3` |
| Sketch.Pack565FieldsDisjoint | src/main.cpp:49 | the three shifted fields share no bit |
| Sketch.UnpackPack | src/main.cpp:49 | unpacking a packed pixel gives back the top 5, 6 and 5 bits of red, green and blue |
| Sketch.PackUnpack | src/main.cpp:49 | every 16-bit value is the packing of the colour it stands for |
| Sketch.PixelIndexInBounds | src/main.cpp:41-46 | for `y < 135` and `x < 240`, `idx`, `idx+1` and `idx+2` are inside the 97200-byte image |
| Sketch.LastPixelEndsTheImage | include/orca_m5.h:12 | the last pixel ends exactly at the image's last byte |
| Sketch.PixelsDoNotShareBytes | src/main.cpp:43-46 | different pixels read disjoint byte triples |
| Sketch.SplashRow | src/main.cpp:41-50 | one converted row of the image, 240 entries long; its contract is stated by `SplashRowIsRgb565`, `FillLine` and `ShowSplashScreen` |
| Sketch.SplashRowIsRgb565 | src/main.cpp:42-50 | each entry of a row unpacks to the top bits of its pixel's three bytes |
| Sketch.FillLine | src/main.cpp:42-50 | the inner loop fills all 240 entries of `lineBuffer` with the row's packed pixels |
| Sketch.ShowSplashScreen | src/main.cpp:36-56 | exactly 135 rows are pushed, row `y` being the 240 packed pixels of image row `y` |
| Sketch.RedrawStep | src/main.cpp:128-137 | the redraw decision and the new `lastState`; its contract is stated by `RedrawWhenChangedOrFlagged` and `NoRedrawOnRepeat` |
| Sketch.RedrawWhenChangedOrFlagged | src/main.cpp:128-137 | `loop` draws exactly when the state changed or the redraw flag is set, and `lastState` is the current state afterwards |
| Sketch.NoRedrawOnRepeat | src/main.cpp:128-137 | without the flag, a second pass on the same state does not draw |
| Sketch.Device.constructor | src/main.cpp:28-30 | the global objects: a menu on the main menu, idle controller, `lastState` the main menu |
| Sketch.Device.Setup | src/main.cpp:87-109 | when the radio came up it is tuned to the menu's frequency; the controller's `begin` resets its arrays and index |
| Sketch.Device.Loop | src/main.cpp:123-148 | the buttons give the menu fields `v = Buttons(...)`; the redraw decision is `RedrawStep` on `v`'s state; the controller then does exactly one `update()` from its old state and array contents with menu `v` and the same A press (`UpdatedFrom`): its new scalars, ring, spectrum, timing buffer, listen counter, emitted pulses, `rx`, and the menu's mode after a Recording capture or timeout; a pulse train replayed by a later pass is drawn from the buffer a capturing pass wrote |

## Left out

- LCD output is not modelled. This covers every `M5.Lcd` call, `drawSpectrum`,
  `displaySignalStrength`, the plotting in `drawRSSIWaveform`, `menu.draw()`
  and the `draw*Screen` methods. They render and keep no state the radio uses.
- The members that exist only for drawing are left out: `lastDisplayedRSSI`,
  the function-statics `lastDisplayedListenRSSI`, `lastSignalCount` and
  `lastDrawIndex`, and the throttle of `drawRSSIWaveform`. Only that
  function's slot index (src/subghz_operations.cpp:358) is modelled.
- The ELECHOUSE CC1101 driver and SPI are outside the model: `begin` of the
  radio, `setIdleMode`, `setModulation`, `transmit` and the `getRSSI` reads.
  Their results are inputs. `startScan` is the same strobe as `setRxMode`.
- Clocks are inputs. Each handler sees two `millis()` values, one for its
  throttle test and one for the stamp it stores.
- In a capture, each poll carries one microsecond time. It serves both
  `micros()` reads of that pass, and `millis()` is that time divided by 1000.
- A capture also stops when its finite trace of polls runs out. The device's
  own loop has no such stop.
- The capture's clock does not wrap: `micros()`, `millis()` and
  `millis() + 5000` at src/cc1101_interface.cpp:113-114 are unbounded naturals.
- `delay` and `delayMicroseconds` are not modelled as time. A `delay` is
  dropped. A replay delay is recorded as the hold time of the emitted pulse.
- Frequencies are `real`. The `float` rounding of `freq += step` and of
  `10.0 / SPECTRUM_POINTS` is not modelled. On reals the sweep always covers
  all 120 points.
- The comparison `currentFreq != lastListenFreq` is exact on reals.
- `signalCount` is an unbounded integer. It does not wrap at 2^31.
- `showSplashScreen` is modelled without its failure paths and display calls.
  A failing `malloc` is not modelled, `free` and `delay(2000)` are dropped,
  and a pushed row is returned instead of drawn.
- `needsRedraw()` and `clearRedrawFlag()` are declared at
  src/menu_system.h:51-52 with no body in the files read, so their code is
  not part of this model. The answer of `needsRedraw()` is a parameter of
  `Device.Loop`, and `clearRedrawFlag()` is not modelled.
- The M5 button library is outside the model: `M5.BtnA.wasPressed()`,
  `M5.BtnB.wasPressed()` and a non-zero `M5.Axp.GetBtnPress()` are boolean
  inputs.
- `setup()` is reduced to tuning the radio and the controller's `begin()`.
  The M5, IMU and serial initialisation, `menu.begin()`, `setOperations`,
  `randomSeed` and the splash call are left out.
- The Hacks, Games and WiFi AP screens exist only as enum values, and no
  button shown reaches them. `src/wifi_ap.cpp` and `src/games.cpp` are not
  part of this model.
- The fixed-protocol encoders declared at src/subghz_operations.h:16-18 and
  src/subghz_operations.h:65-71 have no bodies in the files read, so they are
  not part of this model.
- `getState`, `getMode`, `getSelectedFreqIndex`, `getSelectedFrequency`,
  `getModuleType` and `getFrequency` are plain reads. They are functions
  with no contract of their own, and the contracts that use them state their
  values.
- Operations.SubGhzOperations.UpdateRecord: the pin is stated to be an input
  only after a detected signal, the one case in which the source calls
  `recordSignal`. The model does not state that the pin stays unchanged
  otherwise.
- Radio.CC1101.ScanSpectrum: the number of points written is a ghost result.
  The C function returns nothing.
- The controller's scalar members are fields of one `Scalars` record. The
  readings since entering Scanning (`scanSamples`) and the detector readings
  since entering Listening (`listenTrace`) are ghost histories. The source
  has neither field.
- The `isTransmitting` guard of `updateReplay` is always false on entry. The
  source is single-threaded and clears the flag before returning, and the
  class invariant states this.

## Findings

| source | as written | input that shows it | evidently intended | confidence | as-written member | corrected member |
|---|---|---|---|---|---|---|
| src/subghz_operations.cpp:358 | the chart column `sampleIdx` draws slot `(historyIndex - (114 - sampleIdx) + 120) % 120`, so the rightmost column (114) draws slot `historyIndex`: the next slot to be written, which holds the oldest reading kept | after two readings, the first frame drawn, the rightmost column shows slot 2, still -100, while the newest reading sits in slot 1; after n >= 120 readings with n even it shows reading n-120 | the comment says the rightmost pixel is the newest reading: slot `(historyIndex - 1 - (114 - sampleIdx) + 120) % 120` | not executed; high | Operations.WaveformAsWrittenRightColumnIsOldest | Operations.WaveformChartShowsRecent |
| src/subghz_operations.cpp:40-60 | the mode-entry resets never clear `recordStartTime`, so a Recording visit left before its 30 s timeout leaves the timer running | enter Recording with the timer set at 1000 ms, leave, re-enter at 61000 ms with no signal: the first call of the new visit times out and sends the menu to Idle | each visit to Recording gets its own 30 s: clear `recordStartTime` on entry (`Entered`) | not executed; medium | Operations.StaleRecordTimerTimesOutAtOnce | Operations.FreshRecordEntryNeverTimesOut |

The controller class follows the code as written: `EnterMode` and `Update`
use `EnteredAsWritten`, so the stale timer of row 2 is part of the model's
behaviour. `Entered` is the corrected resets, and its property is proved
beside it.
