/** The operation-mode controller. Every call of `update` first resets the
    state of a mode it has just entered, then runs the handler of the current
    mode: Scanning keeps a ring buffer of signal strengths, Spectrum sweeps
    120 frequencies around the selected one, Listening counts the times a
    signal appears, Recording makes one capture, Replaying sends it back.
    The scalar fields evolve by the pure step functions below; the class
    methods are proved to follow them. */
module Operations {
  import opened Common
  import opened Radio
  import opened Menu

  const SPECTRUM_POINTS: int := 120
  const MAX_RECORDING_SAMPLES: int := 512
  /** Slots of `rssiHistory`. */
  const HISTORY_SIZE: int := 120
  /** The strength a slot holds before anything is measured, in dBm. */
  const RSSI_FLOOR: int := -100
  /** Throttle periods of the handlers, in ms. */
  const SCAN_PERIOD_MS: int := 100
  const SPECTRUM_PERIOD_MS: int := 500
  const LISTEN_PERIOD_MS: int := 50
  /** Recording gives up after this many whole seconds. */
  const RECORD_TIMEOUT_S: int := 30
  /** Size of `rxBuffer`. */
  const RX_BUFFER_SIZE: int := 64
  /** Columns of the waveform chart: pixels 0, 2, ..., 228. */
  const CHART_COLUMNS: int := 115

  // ---------------------------------------------------------------------
  // Signal-strength bars

  /** Arduino's `map` on `long`, with C's truncating division. */
  function ArduinoMap(x: int, inMin: int, inMax: int, outMin: int, outMax: int): int
    requires inMax != inMin
  {
    CDiv((x - inMin) * (outMax - outMin), inMax - inMin) + outMin
  }

  /** `mapRSSIToBar`: how many of the ten bars to light for a strength. */
  function MapRSSIToBar(rssi: int): (bars: int)
    ensures 0 <= bars <= 10
    ensures rssi < -100 ==> bars == 0
    ensures rssi > -30 ==> bars == 10
    ensures -100 <= rssi <= -30 ==> bars == (rssi + 100) / 7
  {
    if rssi < -100 then 0
    else if rssi > -30 then 10
    else ArduinoMap(rssi, -100, -30, 0, 10)
  }

  /** A stronger signal never lights fewer bars. */
  lemma MapRSSIToBarMonotone(weaker: int, stronger: int)
    requires weaker <= stronger
    ensures MapRSSIToBar(weaker) <= MapRSSIToBar(stronger)
  {
    if -100 <= weaker && stronger <= -30 {
      DivSevenMonotone(weaker + 100, stronger + 100);
    }
  }

  lemma DivSevenMonotone(a: int, b: int)
    requires 0 <= a <= b
    ensures a / 7 <= b / 7
  {
    assert a == a / 7 * 7 + a % 7;
    assert b == b / 7 * 7 + b % 7;
  }

  // ---------------------------------------------------------------------
  // The RSSI history ring

  function NextHistoryIndex(i: int): int {
    CMod(i + 1, HISTORY_SIZE)
  }

  /** The history index after `n` scan ticks starting from `i`. */
  function IndexAfter(i: int, n: nat): int {
    if n == 0 then i else NextHistoryIndex(IndexAfter(i, n - 1))
  }

  /** The history index counts scan ticks modulo 120 and never leaves the
      buffer; each step is `IndexFollowsCount`, the fact the class uses to
      keep `historyIndex` at the number of readings modulo 120. */
  lemma {:induction false} IndexAfterTicks(i: int, n: nat)
    requires 0 <= i < HISTORY_SIZE
    ensures IndexAfter(i, n) == (i + n) % HISTORY_SIZE
    ensures 0 <= IndexAfter(i, n) < HISTORY_SIZE
  {
    if n > 0 {
      IndexAfterTicks(i, n - 1);
      IndexFollowsCount(i + n - 1);
    }
  }

  lemma ModAddMultiple(a: int, m: int)
    ensures (a + m * HISTORY_SIZE) % HISTORY_SIZE == a % HISTORY_SIZE
  {
  }

  /** The index is periodic: 120 more scan ticks bring it back to where it
      was, so every 120 ticks after entering Scanning it is back at 0. */
  lemma FullTurn(i: int, n: nat)
    requires 0 <= i < HISTORY_SIZE
    ensures IndexAfter(i, n + HISTORY_SIZE) == IndexAfter(i, n)
  {
    IndexAfterTicks(i, n + HISTORY_SIZE);
    IndexAfterTicks(i, n);
    ModAddMultiple(i + n, 1);
  }

  function EmptyHistory(): seq<int> {
    seq(HISTORY_SIZE, _ => RSSI_FLOOR)
  }

  /** The contents of `rssiHistory` after the scan ticks that read `samples`,
      oldest first, since Scanning was entered. */
  function RingOf(samples: seq<int>): (r: seq<int>)
    ensures |r| == HISTORY_SIZE
  {
    if samples == [] then EmptyHistory()
    else RingOf(samples[..|samples| - 1])[(|samples| - 1) % HISTORY_SIZE := samples[|samples| - 1]]
  }

  /** The ring keeps the last 120 readings, reading `j` in slot `j % 120`, and
      the slots not yet written hold the floor value. */
  lemma {:induction false} RingHoldsRecent(samples: seq<int>)
    ensures forall j :: 0 <= j < |samples| && |samples| - HISTORY_SIZE <= j ==>
      RingOf(samples)[j % HISTORY_SIZE] == samples[j]
    ensures forall k :: |samples| <= k < HISTORY_SIZE ==> RingOf(samples)[k] == RSSI_FLOOR
  {
    if samples != [] {
      var n := |samples|;
      var p := samples[..n - 1];
      RingHoldsRecent(p);
      forall j | 0 <= j < n && n - HISTORY_SIZE <= j
        ensures RingOf(samples)[j % HISTORY_SIZE] == samples[j]
      {
        if j < n - 1 {
          SlotsDiffer(j, n - 1);
          assert p[j] == samples[j];
        }
      }
    }
  }

  /** One scan tick: the reading lands in the slot the index points at, and
      the index moves on with the number of readings. */
  lemma ScanStepTracksRing(samples: seq<int>, rssi: int)
    ensures RingOf(samples + [rssi]) == RingOf(samples)[|samples| % HISTORY_SIZE := rssi]
    ensures NextHistoryIndex(|samples| % HISTORY_SIZE) == (|samples| + 1) % HISTORY_SIZE
  {
    var longer := samples + [rssi];
    assert longer[..|longer| - 1] == samples;
    IndexFollowsCount(|samples|);
  }

  lemma IndexFollowsCount(n: nat)
    ensures NextHistoryIndex(n % HISTORY_SIZE) == (n + 1) % HISTORY_SIZE
  {
    var q, r := n / HISTORY_SIZE, n % HISTORY_SIZE;
    assert n + 1 == (r + 1) + q * HISTORY_SIZE;
    ModAddMultiple(r + 1, q);
  }

  /** One reading of `RingHoldsRecent`: reading `j` in slot `j % 120`. */
  lemma RingSlotHolds(samples: seq<int>, j: int)
    requires 0 <= j < |samples| && |samples| - HISTORY_SIZE <= j
    ensures RingOf(samples)[j % HISTORY_SIZE] == samples[j]
  {
    RingHoldsRecent(samples);
  }

  /** `RingSlotHolds` for a slot computed elsewhere. */
  lemma RingSlotAt(samples: seq<int>, j: int, slot: int)
    requires 0 <= j < |samples| && |samples| - HISTORY_SIZE <= j && slot == j % HISTORY_SIZE
    ensures RingOf(samples)[slot] == samples[j]
  {
    RingSlotHolds(samples, j);
  }

  /** One unwritten slot of `RingHoldsRecent`. */
  lemma RingSlotUnwritten(samples: seq<int>, k: int)
    requires |samples| <= k < HISTORY_SIZE
    ensures RingOf(samples)[k] == RSSI_FLOOR
  {
    RingHoldsRecent(samples);
  }

  /** Two readings less than 120 apart sit in different slots. */
  lemma SlotsDiffer(j: int, k: int)
    requires 0 <= j < k < j + HISTORY_SIZE
    ensures j % HISTORY_SIZE != k % HISTORY_SIZE
  {
    var qj, qk := j / HISTORY_SIZE, k / HISTORY_SIZE;
    assert j == qj * HISTORY_SIZE + j % HISTORY_SIZE;
    assert k == qk * HISTORY_SIZE + k % HISTORY_SIZE;
  }

  /** `drawRSSIWaveform`, as written: the slot drawn in chart column
      `sampleIdx` (0 on the left, 114 on the right). */
  function WaveformSlotAsWritten(historyIndex: int, sampleIdx: int): int {
    CMod(historyIndex - (114 - sampleIdx) + 120, 120)
  }

  /** The slot that puts the newest reading in the rightmost column. */
  function WaveformSlot(historyIndex: int, sampleIdx: int): int {
    CMod(historyIndex - 1 - (114 - sampleIdx) + 120, 120)
  }

  /** Both slot expressions stay inside the buffer: their dividend is never
      negative, so C's remainder agrees with the mathematical one. */
  lemma WaveformSlotInBounds(historyIndex: int, sampleIdx: int)
    requires 0 <= historyIndex < HISTORY_SIZE && 0 <= sampleIdx < CHART_COLUMNS
    ensures 0 <= WaveformSlotAsWritten(historyIndex, sampleIdx) < HISTORY_SIZE
    ensures WaveformSlotAsWritten(historyIndex, sampleIdx) == (historyIndex + sampleIdx + 6) % HISTORY_SIZE
    ensures 0 <= WaveformSlot(historyIndex, sampleIdx) < HISTORY_SIZE
    ensures WaveformSlot(historyIndex, sampleIdx) == (historyIndex + sampleIdx + 5) % HISTORY_SIZE
  {
  }

  /** The slot of reading `j` seen from `n` readings: `(n % 120 + c) % 120`
      is `j % 120` when `j == n + c - 120`. */
  lemma SlotOfReading(n: nat, c: int, j: int)
    requires 0 <= c < HISTORY_SIZE && j == n + c - HISTORY_SIZE
    ensures (n % HISTORY_SIZE + c) % HISTORY_SIZE == j % HISTORY_SIZE
  {
    assert n == n / HISTORY_SIZE * HISTORY_SIZE + n % HISTORY_SIZE;
    ModAddMultiple(n % HISTORY_SIZE + c, n / HISTORY_SIZE - 1);
    assert n % HISTORY_SIZE + c + (n / HISTORY_SIZE - 1) * HISTORY_SIZE == j;
  }

  /** The corrected slot of column `s` is that of reading `n - 115 + s`. */
  lemma WaveformSlotOfColumn(n: nat, s: int)
    requires 0 <= s < CHART_COLUMNS
    ensures WaveformSlot(n % HISTORY_SIZE, s) == (n - CHART_COLUMNS + s) % HISTORY_SIZE
    ensures n - CHART_COLUMNS + s < 0 ==> WaveformSlot(n % HISTORY_SIZE, s) == n + 5 + s
  {
    WaveformSlotInBounds(n % HISTORY_SIZE, s);
    SlotOfReading(n, s + 5, n - CHART_COLUMNS + s);
  }

  /** With the corrected slot the chart shows the last 115 readings in order,
      the newest on the right; columns older than the first reading show the
      floor value. */
  lemma WaveformChartShowsRecent(samples: seq<int>)
    ensures forall s :: 0 <= s < CHART_COLUMNS && 0 <= |samples| - CHART_COLUMNS + s ==>
      RingOf(samples)[WaveformSlot(|samples| % HISTORY_SIZE, s)] == samples[|samples| - CHART_COLUMNS + s]
    ensures forall s :: 0 <= s < CHART_COLUMNS && |samples| - CHART_COLUMNS + s < 0 ==>
      RingOf(samples)[WaveformSlot(|samples| % HISTORY_SIZE, s)] == RSSI_FLOOR
  {
    var n := |samples|;
    forall s | 0 <= s < CHART_COLUMNS
      ensures 0 <= n - CHART_COLUMNS + s ==>
        RingOf(samples)[WaveformSlot(n % HISTORY_SIZE, s)] == samples[n - CHART_COLUMNS + s]
      ensures n - CHART_COLUMNS + s < 0 ==>
        RingOf(samples)[WaveformSlot(n % HISTORY_SIZE, s)] == RSSI_FLOOR
    {
      WaveformSlotOfColumn(n, s);
      if 0 <= n - CHART_COLUMNS + s {
        RingSlotAt(samples, n - CHART_COLUMNS + s, WaveformSlot(n % HISTORY_SIZE, s));
      } else {
        RingSlotUnwritten(samples, n + 5 + s);
      }
    }
  }

  /** As written, column `s < 114` draws the slot of reading `n - 114 + s`
      and column 114 that of reading `n - 120`. */
  lemma WaveformSlotAsWrittenOfColumn(n: nat, s: int)
    requires 0 <= s < CHART_COLUMNS
    ensures s < CHART_COLUMNS - 1 ==> WaveformSlotAsWritten(n % HISTORY_SIZE, s) == (n - 114 + s) % HISTORY_SIZE
    ensures s == CHART_COLUMNS - 1 ==> WaveformSlotAsWritten(n % HISTORY_SIZE, s) == (n - HISTORY_SIZE) % HISTORY_SIZE
  {
    WaveformSlotInBounds(n % HISTORY_SIZE, s);
    if s < CHART_COLUMNS - 1 {
      SlotOfReading(n, s + 6, n - 114 + s);
    } else {
      SlotOfReading(n, 0, n - HISTORY_SIZE);
      ModAddMultiple(n % HISTORY_SIZE, 1);
    }
  }

  /** As written, once the ring is full the columns 0..113 show the readings
      `n-114 .. n-1` but the rightmost column shows reading `n-120`, the
      oldest one kept. */
  lemma WaveformAsWrittenRightColumnIsOldest(samples: seq<int>)
    requires |samples| >= HISTORY_SIZE
    ensures forall s :: 0 <= s < CHART_COLUMNS - 1 ==>
      RingOf(samples)[WaveformSlotAsWritten(|samples| % HISTORY_SIZE, s)] == samples[|samples| - 114 + s]
    ensures RingOf(samples)[WaveformSlotAsWritten(|samples| % HISTORY_SIZE, 114)] == samples[|samples| - HISTORY_SIZE]
  {
    forall s | 0 <= s < CHART_COLUMNS - 1
      ensures RingOf(samples)[WaveformSlotAsWritten(|samples| % HISTORY_SIZE, s)] == samples[|samples| - 114 + s]
    {
      WaveformAsWrittenColumn(samples, s);
    }
    WaveformAsWrittenRightColumn(samples);
  }

  /** One of the columns 0..113 of `WaveformAsWrittenRightColumnIsOldest`. */
  lemma WaveformAsWrittenColumn(samples: seq<int>, s: int)
    requires |samples| >= HISTORY_SIZE && 0 <= s < CHART_COLUMNS - 1
    ensures RingOf(samples)[WaveformSlotAsWritten(|samples| % HISTORY_SIZE, s)] == samples[|samples| - 114 + s]
  {
    WaveformSlotAsWrittenOfColumn(|samples|, s);
    RingSlotAt(samples, |samples| - 114 + s, WaveformSlotAsWritten(|samples| % HISTORY_SIZE, s));
  }

  /** The rightmost column of `WaveformAsWrittenRightColumnIsOldest`. */
  lemma WaveformAsWrittenRightColumn(samples: seq<int>)
    requires |samples| >= HISTORY_SIZE
    ensures RingOf(samples)[WaveformSlotAsWritten(|samples| % HISTORY_SIZE, 114)] == samples[|samples| - HISTORY_SIZE]
  {
    RightColumnSlot(|samples|);
    RingSlotAt(samples, |samples| - HISTORY_SIZE, WaveformSlotAsWritten(|samples| % HISTORY_SIZE, 114));
  }

  /** As written, the rightmost column draws the slot of reading `n - 120`. */
  lemma RightColumnSlot(n: int)
    requires n >= HISTORY_SIZE
    ensures WaveformSlotAsWritten(n % HISTORY_SIZE, 114) == (n - HISTORY_SIZE) % HISTORY_SIZE
  {
    WaveformSlotInBounds(n % HISTORY_SIZE, 114);
    ModAddMultiple(n % HISTORY_SIZE, 1);
    ModAddMultiple(n - HISTORY_SIZE, 1);
  }

  /** As written, at the first frame the chart draws (it skips every odd
      history index), two readings in, the newest reading sits in slot 1
      while the rightmost column draws slot 2, which still holds the floor;
      the corrected slot draws the newest reading there. */
  lemma WaveformAsWrittenMissesNewestReading(older: int, newest: int)
    requires newest != RSSI_FLOOR
    ensures RingOf([older, newest])[1] == newest
    ensures RingOf([older, newest])[WaveformSlotAsWritten(2, 114)] == RSSI_FLOOR
    ensures RingOf([older, newest])[WaveformSlotAsWritten(2, 114)] != newest
    ensures RingOf([older, newest])[WaveformSlot(2, 114)] == newest
  {
    RingSlotUnwritten([older, newest], 2);
    RingSlotHolds([older, newest], 1);
  }

  // ---------------------------------------------------------------------
  // Listening: the rising-edge counter

  /** The detector level after `trace`, starting from `prev`. */
  function LastLevel(prev: bool, trace: seq<bool>): bool {
    if trace == [] then prev else trace[|trace| - 1]
  }

  /** How many times the detector goes from false to true along `trace`,
      starting from `prev`. */
  function RisingEdges(prev: bool, trace: seq<bool>): nat {
    if trace == [] then 0
    else
      RisingEdges(prev, trace[..|trace| - 1]) +
      if trace[|trace| - 1] && !LastLevel(prev, trace[..|trace| - 1]) then 1 else 0
  }

  /** One more reading: it is counted exactly when it finds the detector off,
      and it becomes the level. */
  lemma ListenStepCounts(prev: bool, trace: seq<bool>, detected: bool)
    ensures RisingEdges(prev, trace + [detected]) ==
      RisingEdges(prev, trace) + if detected && !LastLevel(prev, trace) then 1 else 0
    ensures LastLevel(prev, trace + [detected]) == detected
  {
    assert (trace + [detected])[..|trace|] == trace;
  }

  /** A signal that stays present is counted once, and only if it was absent
      before. */
  lemma {:induction false} SteadySignalCountedOnce(prev: bool, trace: seq<bool>)
    requires forall k :: 0 <= k < |trace| ==> trace[k]
    ensures RisingEdges(prev, trace) == if trace != [] && !prev then 1 else 0
  {
    if trace != [] {
      var p := trace[..|trace| - 1];
      SteadySignalCountedOnce(prev, p);
      assert p != [] ==> LastLevel(prev, p) == trace[|trace| - 2];
    }
  }

  /** Every counted appearance needs an absence before it, so at most about
      half the ticks are counted. */
  lemma {:induction false} RisingEdgesBound(prev: bool, trace: seq<bool>)
    ensures 2 * RisingEdges(prev, trace) <= |trace| + if LastLevel(prev, trace) then 1 else 0
  {
    if trace != [] {
      RisingEdgesBound(prev, trace[..|trace| - 1]);
    }
  }

  // ---------------------------------------------------------------------
  // Recording: the counted prefix

  /** The length of the longest prefix of strictly positive entries. */
  function PositivePrefixLen(s: seq<int>): (n: nat)
    ensures n <= |s|
    ensures forall k :: 0 <= k < n ==> s[k] > 0
    ensures n < |s| ==> s[n] <= 0
  {
    if s == [] || s[0] <= 0 then 0 else 1 + PositivePrefixLen(s[1..])
  }

  /** `buf` after its first `|d|` entries were overwritten by `d`. */
  function Overwrite(buf: seq<int>, d: seq<int>): seq<int> {
    d + if |d| <= |buf| then buf[|d|..] else []
  }

  /** A capture of at most 10 changes leaves the buffer from entry 10 on as
      it was. */
  lemma ShortCaptureKeepsTail(buf: seq<int>, d: seq<int>)
    requires |d| <= MIN_EDGES <= |buf|
    ensures |Overwrite(buf, d)| == |buf|
    ensures forall k :: MIN_EDGES <= k < |buf| ==> Overwrite(buf, d)[k] == buf[k]
  {
  }

  /** Overwriting a zero-tailed buffer with positive durations: the counted
      prefix is exactly the durations. */
  lemma CountedPrefixIsCapture(buf: seq<int>, d: seq<int>, zeroFrom: nat)
    requires zeroFrom <= |d| <= |buf|
    requires forall k :: zeroFrom <= k < |buf| ==> buf[k] == 0
    requires forall k :: 0 <= k < |d| ==> d[k] > 0
    ensures PositivePrefixLen(Overwrite(buf, d)) == |d|
  {
    var o := Overwrite(buf, d);
    assert |o| == |buf|;
    assert forall k :: 0 <= k < |d| ==> o[k] == d[k];
    assert |d| < |o| ==> o[|d|] == buf[|d|] == 0;
  }

  // ---------------------------------------------------------------------
  // The scalar state and its step functions

  /** The controller's scalar members (the display-only ones left out). */
  datatype Scalars = Scalars(
    lastMode: OperationMode,
    lastRSSI: int,
    scanCounter: int,
    historyIndex: int,
    lastScanUpdate: u32,
    lastSpectrumUpdate: u32,
    lastListenUpdate: u32,
    signalCount: int,
    forceListenDraw: bool,
    lastListenFreq: real,
    lastSignalState: bool,
    recordedSampleCount: int,
    hasRecording: bool,
    recordStartTime: u32,
    isTransmitting: bool)

  /** A handler is due when strictly more than its period has passed since
      its timestamp, measured on the wrapping millisecond clock. */
  predicate Due(now: u32, last: u32, periodMs: int) {
    ElapsedMs(now, last) > periodMs
  }

  /** The corrected mode-entry resets: those of `update` as written, plus a
      restart of the 30 s Recording timer on entering Recording. */
  function Entered(f: Scalars, mode: OperationMode): Scalars {
    if mode == f.lastMode then f
    else (if mode == ModeRecording then EnteredAsWritten(f, mode).(recordStartTime := 0)
          else EnteredAsWritten(f, mode))
  }

  /** The resets exactly as the source writes them: the Recording timer is
      never restarted on entry. */
  function EnteredAsWritten(f: Scalars, mode: OperationMode): Scalars {
    if mode == f.lastMode then f
    else
      (if mode == ModeScanning then f.(scanCounter := 0, historyIndex := 0)
       else if mode == ModeListening then
         f.(signalCount := 0, forceListenDraw := true, lastListenUpdate := 0, lastListenFreq := 0.0)
       else f).(lastMode := mode)
  }

  /** `updateScan` on the scalar fields. */
  function ScanTick(f: Scalars, now: u32, stamp: u32, rssi: int): Scalars {
    if Due(now, f.lastScanUpdate, SCAN_PERIOD_MS) then
      f.(lastRSSI := rssi, historyIndex := NextHistoryIndex(f.historyIndex), lastScanUpdate := stamp)
    else f
  }

  /** `updateSpectrum` on the scalar fields. */
  function SpectrumTick(f: Scalars, now: u32, stamp: u32): Scalars {
    if Due(now, f.lastSpectrumUpdate, SPECTRUM_PERIOD_MS) then f.(lastSpectrumUpdate := stamp) else f
  }

  /** The detector level a listening tick compares against: a pending forced
      redraw resets it to false first. */
  function PriorSignal(f: Scalars): bool {
    if f.forceListenDraw then false else f.lastSignalState
  }

  /** A listening tick that acts and sees the signal appear. */
  predicate ListenRising(f: Scalars, now: u32, detected: bool) {
    Due(now, f.lastListenUpdate, LISTEN_PERIOD_MS) && detected && !PriorSignal(f)
  }

  /** A listening tick that acts, tuned to `freq`, with detector reading
      `detected`: the counter goes up on a rising edge, the reading becomes
      the level and the forced redraw is done. */
  function ListenUpdate(f: Scalars, freq: real, detected: bool): Scalars {
    f.(forceListenDraw := false, lastListenFreq := freq,
       signalCount := f.signalCount + (if detected && !PriorSignal(f) then 1 else 0),
       lastSignalState := detected)
  }

  /** `updateListen` on the scalar fields. */
  function ListenTick(f: Scalars, freq: real, now: u32, stamp: u32, detected: bool): Scalars {
    if Due(now, f.lastListenUpdate, LISTEN_PERIOD_MS) then
      ListenUpdate(f, freq, detected).(lastListenUpdate := stamp)
    else f
  }

  /** The Recording timer: started at `stamp` if unset (0); times out after
      30 whole seconds, and is then cleared. Yields the new start and whether
      it timed out. */
  function RecordTimerStep(start: u32, stamp: u32): (u32, bool) {
    var s := if start == 0 then stamp else start;
    if ElapsedMs(stamp, s) / 1000 >= RECORD_TIMEOUT_S then (0, true) else (s, false)
  }

  /** `updateRecord` on the scalar fields; `captured` says a signal was
      detected and its capture accepted, `count` is the counted prefix. */
  function RecordTick(f: Scalars, captured: bool, count: int, stamp: u32): Scalars {
    if f.hasRecording then f
    else
      (if captured then f.(recordedSampleCount := count, hasRecording := true) else f)
        .(recordStartTime := RecordTimerStep(f.recordStartTime, stamp).0)
  }

  /** The mode `updateRecord` leaves the menu in: Replaying after a capture,
      but Idle if the timer runs out in the same call. */
  function RecordMode(mode: OperationMode, f: Scalars, captured: bool, stamp: u32): OperationMode {
    if f.hasRecording then mode
    else if RecordTimerStep(f.recordStartTime, stamp).1 then ModeIdle
    else if captured then ModeReplaying
    else mode
  }

  /** Whether a capture of this trace is accepted by `recordSignal`. */
  predicate CaptureAccepted(startUs: nat, startLevel: bool, polls: seq<Poll>) {
    |RecordCapture(startUs, startLevel, polls, MAX_RECORDING_SAMPLES).durations| > MIN_EDGES
  }

  /** The frequency of point `i` of the spectrum sweep around `base`:
      `base - 5` in steps of `10 / 120` MHz. */
  function SpectrumFreq(base: real, i: int): real {
    SweepFreq(base - 5.0, 10.0 / 120.0, i)
  }

  // ---------------------------------------------------------------------
  // Properties of the steps

  /** Entering Scanning restarts the index; entering Listening clears the
      counter and forces a redraw and an immediate tick; entering any other
      mode, Recording included, only records the mode; staying in a mode
      resets nothing. */
  lemma ModeEntryResets(f: Scalars, mode: OperationMode)
    ensures EnteredAsWritten(f, mode).lastMode == mode
    ensures mode == f.lastMode ==> EnteredAsWritten(f, mode) == f
    ensures mode != f.lastMode && mode == ModeScanning ==>
      EnteredAsWritten(f, mode) == f.(lastMode := mode, scanCounter := 0, historyIndex := 0)
    ensures mode != f.lastMode && mode == ModeListening ==>
      EnteredAsWritten(f, mode) == f.(lastMode := mode, signalCount := 0, forceListenDraw := true,
                                      lastListenUpdate := 0, lastListenFreq := 0.0)
    ensures mode != f.lastMode && (mode == ModeIdle || mode == ModeSpectrum || mode == ModeRecording ||
                                   mode == ModeReplaying) ==>
      EnteredAsWritten(f, mode) == f.(lastMode := mode)
  {
  }

  /** A handler that is not due changes nothing; one that is due records the
      time stamp it read last. */
  lemma HandlersWaitForTheirPeriod(f: Scalars, freq: real, now: u32, stamp: u32, rssi: int, detected: bool)
    ensures !Due(now, f.lastScanUpdate, SCAN_PERIOD_MS) ==> ScanTick(f, now, stamp, rssi) == f
    ensures Due(now, f.lastScanUpdate, SCAN_PERIOD_MS) ==> ScanTick(f, now, stamp, rssi).lastScanUpdate == stamp
    ensures !Due(now, f.lastSpectrumUpdate, SPECTRUM_PERIOD_MS) ==> SpectrumTick(f, now, stamp) == f
    ensures Due(now, f.lastSpectrumUpdate, SPECTRUM_PERIOD_MS) ==> SpectrumTick(f, now, stamp).lastSpectrumUpdate == stamp
    ensures !Due(now, f.lastListenUpdate, LISTEN_PERIOD_MS) ==> ListenTick(f, freq, now, stamp, detected) == f
    ensures Due(now, f.lastListenUpdate, LISTEN_PERIOD_MS) ==> ListenTick(f, freq, now, stamp, detected).lastListenUpdate == stamp
  {
  }

  /** A scan tick that acts stores the reading and advances the index by one
      place around the ring. */
  lemma ScanTickAdvances(f: Scalars, now: u32, stamp: u32, rssi: int)
    requires 0 <= f.historyIndex < HISTORY_SIZE
    requires Due(now, f.lastScanUpdate, SCAN_PERIOD_MS)
    ensures ScanTick(f, now, stamp, rssi).lastRSSI == rssi
    ensures ScanTick(f, now, stamp, rssi).historyIndex == (f.historyIndex + 1) % HISTORY_SIZE
    ensures 0 <= ScanTick(f, now, stamp, rssi).historyIndex < HISTORY_SIZE
  {
  }

  /** A listening tick that acts adds one to the counter exactly when the
      signal appears, adopts the reading as the new level and clears the
      forced redraw; a signal that stays present is not counted again. */
  lemma ListenTickCounts(f: Scalars, freq: real, now: u32, stamp: u32, detected: bool)
    requires Due(now, f.lastListenUpdate, LISTEN_PERIOD_MS)
    ensures ListenTick(f, freq, now, stamp, detected).signalCount ==
      f.signalCount + if detected && !PriorSignal(f) then 1 else 0
    ensures ListenTick(f, freq, now, stamp, detected).lastSignalState == detected
    ensures !ListenTick(f, freq, now, stamp, detected).forceListenDraw
    ensures !f.forceListenDraw && f.lastSignalState && detected ==>
      ListenTick(f, freq, now, stamp, detected).signalCount == f.signalCount
  {
  }

  /** A set timer times out exactly when 30 000 ms have passed since it was
      started, and is then cleared; an unset timer starts now. */
  lemma RecordTimerThirtySeconds(start: u32, stamp: u32)
    ensures start != 0 ==> (RecordTimerStep(start, stamp).1 <==> ElapsedMs(stamp, start) >= 30000)
    ensures RecordTimerStep(start, stamp).1 ==> RecordTimerStep(start, stamp).0 == 0
    ensures start != 0 && !RecordTimerStep(start, stamp).1 ==> RecordTimerStep(start, stamp).0 == start
    ensures start == 0 ==> !RecordTimerStep(start, stamp).1 && RecordTimerStep(start, stamp).0 == stamp
  {
  }

  /** Once a recording exists, the Recording handler does nothing. */
  lemma RecordingIsOneShot(f: Scalars, mode: OperationMode, captured: bool, count: int, stamp: u32)
    requires f.hasRecording
    ensures RecordTick(f, captured, count, stamp) == f
    ensures RecordMode(mode, f, captured, stamp) == mode
  {
  }

  /** An accepted capture keeps its counted length, marks the recording
      present and switches to Replaying, unless the timer runs out in the
      same call, which sends the menu to Idle instead. */
  lemma CaptureSwitchesToReplay(f: Scalars, mode: OperationMode, count: int, stamp: u32)
    requires !f.hasRecording
    ensures RecordTick(f, true, count, stamp).hasRecording
    ensures RecordTick(f, true, count, stamp).recordedSampleCount == count
    ensures RecordMode(mode, f, true, stamp) ==
      if RecordTimerStep(f.recordStartTime, stamp).1 then ModeIdle else ModeReplaying
  {
  }

  /** As written, a timer left running by an earlier visit to Recording
      survives re-entry: when 30 s have passed since it was started, the very
      first call of the new visit times out, whether or not a signal was
      captured (for instance: left at 1 s, back at 61 s). */
  lemma StaleRecordTimerTimesOutAtOnce(f: Scalars, captured: bool, stamp: u32)
    requires f.lastMode != ModeRecording && !f.hasRecording && f.recordStartTime != 0
    requires ElapsedMs(stamp, f.recordStartTime) >= 30000
    ensures EnteredAsWritten(f, ModeRecording).recordStartTime == f.recordStartTime
    ensures RecordMode(ModeRecording, EnteredAsWritten(f, ModeRecording), captured, stamp) == ModeIdle
  {
  }

  /** With the timer restarted on entry, the first call after entering
      Recording never times out, whatever the clock says. */
  lemma FreshRecordEntryNeverTimesOut(f: Scalars, captured: bool, stamp: u32)
    requires f.lastMode != ModeRecording && !f.hasRecording
    ensures !RecordTimerStep(Entered(f, ModeRecording).recordStartTime, stamp).1
    ensures RecordMode(ModeRecording, Entered(f, ModeRecording), captured, stamp) ==
      if captured then ModeReplaying else ModeRecording
  {
  }

  /** The spectrum sweep never stops early: on exact arithmetic all 120 points
      lie in `[base - 5, base + 5]`. */
  lemma SpectrumSweepCoversAllPoints(base: real, filled: nat)
    requires filled < SPECTRUM_POINTS
    ensures SpectrumFreq(base, filled) <= base + 5.0
  {
  }

  // ---------------------------------------------------------------------
  // What the hardware answers during one call of `update`

  datatype Environment = Environment(
    /** `millis()` when a handler checks its throttle. */
    now: u32,
    /** `millis()` when a handler stores its time stamp (and for the
        Recording timer). */
    stamp: u32,
    /** `getRSSI()` for the strength reading of Scan. */
    rssi: int,
    /** `getRSSI()` inside `signalDetected()`. */
    detectRssi: int,
    /** The strength read at each frequency of a spectrum sweep. */
    rssiAt: real -> int,
    /** Length the driver reports for a frame waiting in the receive FIFO. */
    frame: Option<int>,
    /** GDO0 during a capture: start time, level read first, later polls. */
    captureUs: nat,
    captureLevel: bool,
    polls: seq<Poll>,
    /** `M5.BtnA.wasPressed()` as seen by `updateReplay`. */
    buttonA: bool)

  /** The members a listening tick rewrites, worked on as the locals of
      `updateListen` (src/subghz_operations.cpp:158-223), tuned to
      `currentFreq` with detector reading `detected`; `rx` is the result of
      the `receiveData` call made on a rising edge. The stamp is stored by
      the caller. */
  method ListenStep(f: Scalars, currentFreq: real, detected: bool, frame: Option<int>)
    returns (g: Scalars, rx: Option<int>)
    ensures g == ListenUpdate(f, currentFreq, detected)
    ensures rx == if detected && !PriorSignal(f) then Some(ReceiveData(frame, RX_BUFFER_SIZE)) else None
  {
    var force, freq, level, count := f.forceListenDraw, f.lastListenFreq, f.lastSignalState, f.signalCount;
    if force {
      level := false;
    }
    if currentFreq != freq {
      force := true;
      freq := currentFreq;
    }
    if force {
      // A forced redraw of the level and the counter clears the flag; an
      // unforced one leaves it false.
      force := false;
    }
    rx := None;
    if detected && !level {
      count := count + 1;
      var len := ReceiveData(frame, RX_BUFFER_SIZE);
      rx := Some(len);
    }
    level := detected;
    g := f.(forceListenDraw := force, lastListenFreq := freq, signalCount := count, lastSignalState := level);
  }

  // ---------------------------------------------------------------------
  // The controller object

  class SubGhzOperations {
    const radio: CC1101
    const menu: MenuSystem
    const rssiHistory: array<int>
    const spectrumData: array<int>
    const recordedTimings: array<int>

    /** The scalar members of the class, held together as one record; each
        handler rewrites the members the source assigns. */
    var st: Scalars

    /** The readings stored since Scanning was last entered. */
    ghost var scanSamples: seq<int>
    /** The detector readings of the listening ticks since Listening was last
        entered. */
    ghost var listenTrace: seq<bool>

    ghost predicate Valid()
      reads this, menu, rssiHistory, spectrumData, recordedTimings
    {
      && Layout()
      && menu.Valid()
      && ScanInv()
      && ListenInv()
      && RecordInv()
      && !st.isTransmitting
    }

    /** The three arrays have their declared sizes and are distinct. */
    ghost predicate Layout() {
      && rssiHistory.Length == HISTORY_SIZE
      && spectrumData.Length == SPECTRUM_POINTS
      && recordedTimings.Length == MAX_RECORDING_SAMPLES
      && rssiHistory != spectrumData && rssiHistory != recordedTimings && spectrumData != recordedTimings
    }

    /** While scanning, the history is the ring of the readings since entry. */
    ghost predicate ScanInv()
      reads this`st, this`scanSamples, rssiHistory
    {
      && 0 <= st.historyIndex < HISTORY_SIZE
      && (st.lastMode == ModeScanning ==>
            st.historyIndex == |scanSamples| % HISTORY_SIZE && rssiHistory[..] == RingOf(scanSamples))
    }

    /** While listening, the counter is the number of appearances along the
        detector readings since entry, and the level compared against is the
        last of them. */
    ghost predicate ListenInv()
      reads this`st, this`listenTrace
    {
      st.lastMode == ModeListening ==>
        && st.signalCount == RisingEdges(false, listenTrace)
        && (st.forceListenDraw ==> listenTrace == [])
        && PriorSignal(st) == LastLevel(false, listenTrace)
    }

    /** A recording's count is its positive prefix; before the first one, the
        count is 0 and the buffer is zero from entry 10 on (a rejected capture
        writes at most 10 entries). */
    ghost predicate RecordInv()
      reads this`st, recordedTimings
    {
      && 0 <= st.recordedSampleCount <= MAX_RECORDING_SAMPLES
      && (st.hasRecording ==> st.recordedSampleCount == PositivePrefixLen(recordedTimings[..]))
      && (!st.hasRecording ==>
            && st.recordedSampleCount == 0
            && forall k :: MIN_EDGES <= k < recordedTimings.Length ==> recordedTimings[k] == 0)
    }

    /** The controller of the sketch is a global object, so its arrays start
        zeroed and so does `historyIndex`, which the constructor leaves alone. */
    constructor (radio: CC1101, menu: MenuSystem)
      requires menu.Valid()
      ensures Valid() && this.radio == radio && this.menu == menu
      ensures st == Scalars(ModeIdle, -100, 0, 0, 0, 0, 0, 0, true, 0.0, false, 0, false, 0, false)
      ensures rssiHistory[..] == seq(HISTORY_SIZE, _ => 0) && spectrumData[..] == seq(SPECTRUM_POINTS, _ => 0)
      ensures recordedTimings[..] == seq(MAX_RECORDING_SAMPLES, _ => 0)
    {
      this.radio := radio;
      this.menu := menu;
      rssiHistory := new int[HISTORY_SIZE](_ => 0);
      spectrumData := new int[SPECTRUM_POINTS](_ => 0);
      recordedTimings := new int[MAX_RECORDING_SAMPLES](_ => 0);
      st := Scalars(
        lastMode := ModeIdle, lastRSSI := -100, scanCounter := 0, historyIndex := 0,
        lastScanUpdate := 0, lastSpectrumUpdate := 0, lastListenUpdate := 0,
        signalCount := 0, forceListenDraw := true, lastListenFreq := 0.0, lastSignalState := false,
        recordedSampleCount := 0, hasRecording := false, recordStartTime := 0, isTransmitting := false);
      scanSamples := [];
      listenTrace := [];
    }

    method ClearHistory()
      requires rssiHistory.Length == HISTORY_SIZE
      modifies rssiHistory
      ensures rssiHistory[..] == EmptyHistory()
    {
      var i := 0;
      while i < rssiHistory.Length
        invariant 0 <= i <= rssiHistory.Length
        invariant forall k :: 0 <= k < i ==> rssiHistory[k] == RSSI_FLOOR
      {
        rssiHistory[i] := RSSI_FLOOR;
        i := i + 1;
      }
    }

    method ClearSpectrum()
      modifies spectrumData
      ensures forall k :: 0 <= k < spectrumData.Length ==> spectrumData[k] == RSSI_FLOOR
    {
      var i := 0;
      while i < spectrumData.Length
        invariant 0 <= i <= spectrumData.Length
        invariant forall k :: 0 <= k < i ==> spectrumData[k] == RSSI_FLOOR
      {
        spectrumData[i] := RSSI_FLOOR;
        i := i + 1;
      }
    }

    /** `begin()`: both arrays to the floor value and the history index to 0. */
    method Begin()
      requires Valid()
      modifies this`st, this`scanSamples, rssiHistory, spectrumData
      ensures Valid()
      ensures rssiHistory[..] == EmptyHistory() && scanSamples == []
      ensures forall k :: 0 <= k < SPECTRUM_POINTS ==> spectrumData[k] == RSSI_FLOOR
      ensures st == old(st).(historyIndex := 0)
    {
      ClearSpectrum();
      ClearHistory();
      st := st.(historyIndex := 0);
      scanSamples := [];
    }

    /** The mode-entry resets at the head of `update()`. */
    method EnterMode(mode: OperationMode)
      requires Valid()
      modifies this`st, this`scanSamples, this`listenTrace, rssiHistory, spectrumData
      ensures Valid() && st.lastMode == mode
      ensures st == EnteredAsWritten(old(st), mode)
      ensures mode != old(st.lastMode) && mode == ModeScanning ==>
        rssiHistory[..] == EmptyHistory() && scanSamples == []
      ensures !(mode != old(st.lastMode) && mode == ModeScanning) ==>
        unchanged(rssiHistory) && scanSamples == old(scanSamples)
      ensures mode != old(st.lastMode) && mode == ModeSpectrum ==>
        forall k :: 0 <= k < SPECTRUM_POINTS ==> spectrumData[k] == RSSI_FLOOR
      ensures !(mode != old(st.lastMode) && mode == ModeSpectrum) ==> unchanged(spectrumData)
      ensures mode != old(st.lastMode) && mode == ModeListening ==> listenTrace == []
      ensures !(mode != old(st.lastMode) && mode == ModeListening) ==> listenTrace == old(listenTrace)
    {
      if mode != st.lastMode {
        if mode == ModeScanning {
          st := st.(scanCounter := 0, historyIndex := 0);
          ClearHistory();
          scanSamples := [];
        } else if mode == ModeListening {
          st := st.(signalCount := 0, forceListenDraw := true, lastListenUpdate := 0, lastListenFreq := 0.0);
          listenTrace := [];
        } else if mode == ModeSpectrum {
          ClearSpectrum();
        }
        st := st.(lastMode := mode);
      }
    }

    /** `updateScan()`. */
    method UpdateScan(t: Environment)
      requires Valid() && st.lastMode == ModeScanning
      modifies this`st, this`scanSamples, radio`currentFrequency, radio`chip, rssiHistory
      ensures Valid() && st.lastMode == ModeScanning
      ensures st == ScanTick(old(st), t.now, t.stamp, t.rssi)
      ensures Due(t.now, old(st.lastScanUpdate), SCAN_PERIOD_MS) ==>
        && scanSamples == old(scanSamples) + [t.rssi]
        && rssiHistory[..] == old(rssiHistory[..])[old(st.historyIndex) := t.rssi]
        && radio.currentFrequency == menu.GetSelectedFrequency() && radio.chip == Receive
      ensures !Due(t.now, old(st.lastScanUpdate), SCAN_PERIOD_MS) ==>
        scanSamples == old(scanSamples) && unchanged(rssiHistory) && unchanged(radio)
    {
      if ElapsedMs(t.now, st.lastScanUpdate) > SCAN_PERIOD_MS {
        radio.SetFrequency(menu.GetSelectedFrequency());
        radio.SetRxMode();
        var rssi := t.rssi;
        ScanStepTracksRing(scanSamples, rssi);
        rssiHistory[st.historyIndex] := rssi;
        scanSamples := scanSamples + [rssi];
        st := st.(lastRSSI := rssi, historyIndex := CMod(st.historyIndex + 1, HISTORY_SIZE),
                  lastScanUpdate := t.stamp);
      }
    }

    /** `updateSpectrum()`: a sweep of 120 points from 5 MHz below to 5 MHz
        above the selected frequency. */
    method UpdateSpectrum(t: Environment)
      requires Valid()
      modifies this`st, radio`currentFrequency, spectrumData
      ensures Valid()
      ensures st == SpectrumTick(old(st), t.now, t.stamp)
      ensures Due(t.now, old(st.lastSpectrumUpdate), SPECTRUM_PERIOD_MS) ==>
        && (forall i :: 0 <= i < SPECTRUM_POINTS ==>
              spectrumData[i] == t.rssiAt(SpectrumFreq(menu.GetSelectedFrequency(), i)))
        && radio.currentFrequency == SpectrumFreq(menu.GetSelectedFrequency(), SPECTRUM_POINTS - 1)
      ensures !Due(t.now, old(st.lastSpectrumUpdate), SPECTRUM_PERIOD_MS) ==>
        unchanged(spectrumData) && unchanged(radio)
    {
      if ElapsedMs(t.now, st.lastSpectrumUpdate) > SPECTRUM_PERIOD_MS {
        var baseFreq := menu.GetSelectedFrequency();
        var startFreq := baseFreq - 5.0;
        var endFreq := baseFreq + 5.0;
        var step := 10.0 / SPECTRUM_POINTS as real;
        ghost var filled: nat;
        filled := radio.ScanSpectrum(startFreq, endFreq, step, spectrumData, SPECTRUM_POINTS, t.rssiAt);
        if filled < SPECTRUM_POINTS {
          SpectrumSweepCoversAllPoints(baseFreq, filled);
        }
        assert filled == SPECTRUM_POINTS;
        st := st.(lastSpectrumUpdate := t.stamp);
      }
    }

    /** `updateListen()`. `rx` is the result of the `receiveData` call, made
        only when the signal has just appeared. */
    method UpdateListen(t: Environment) returns (rx: Option<int>)
      requires Valid() && st.lastMode == ModeListening
      modifies this`st, this`listenTrace, radio`currentFrequency, radio`chip
      ensures Valid() && st.lastMode == ModeListening
      ensures st == ListenTick(old(st), menu.GetSelectedFrequency(), t.now, t.stamp, SignalDetected(t.detectRssi))
      ensures rx == if ListenRising(old(st), t.now, SignalDetected(t.detectRssi))
                    then Some(ReceiveData(t.frame, RX_BUFFER_SIZE)) else None
      ensures Due(t.now, old(st.lastListenUpdate), LISTEN_PERIOD_MS) ==>
        && listenTrace == old(listenTrace) + [SignalDetected(t.detectRssi)]
        && radio.currentFrequency == menu.GetSelectedFrequency() && radio.chip == Receive
      ensures !Due(t.now, old(st.lastListenUpdate), LISTEN_PERIOD_MS) ==>
        listenTrace == old(listenTrace) && unchanged(radio)
    {
      rx := None;
      if ElapsedMs(t.now, st.lastListenUpdate) > LISTEN_PERIOD_MS {
        var currentFreq := menu.GetSelectedFrequency();
        radio.SetFrequency(currentFreq);
        radio.SetRxMode();
        var currentSignalState := SignalDetected(t.detectRssi);
        var next;
        next, rx := ListenStep(st, currentFreq, currentSignalState, t.frame);
        ListenStepCounts(false, listenTrace, currentSignalState);
        listenTrace := listenTrace + [currentSignalState];
        st := next.(lastListenUpdate := t.stamp);
        assert ScanInv() && RecordInv();
      }
    }

    /** `updateRecord()`. */
    method UpdateRecord(t: Environment)
      requires Valid()
      modifies this`st, radio`currentFrequency, radio`chip, radio`pin, menu`currentMode, recordedTimings
      ensures Valid()
      ensures var c := RecordCapture(t.captureUs, t.captureLevel, t.polls, MAX_RECORDING_SAMPLES);
        var attempted := !old(st.hasRecording) && SignalDetected(t.detectRssi);
        var captured := attempted && CaptureAccepted(t.captureUs, t.captureLevel, t.polls);
        && recordedTimings[..] == (if attempted then Overwrite(old(recordedTimings[..]), c.durations)
                                   else old(recordedTimings[..]))
        && st == RecordTick(old(st), captured, PositivePrefixLen(recordedTimings[..]), t.stamp)
        && menu.View() == old(menu.View()).(mode := RecordMode(old(menu.GetMode()), old(st), captured, t.stamp))
        && (captured && ClockStrict(t.captureUs, t.polls) ==> st.recordedSampleCount == |c.durations|)
      ensures old(st.hasRecording) ==> unchanged(radio)
      ensures !old(st.hasRecording) ==>
        && radio.currentFrequency == old(menu.GetSelectedFrequency()) && radio.chip == Receive
        && (SignalDetected(t.detectRssi) ==> radio.pin == PinInput)
    {
      if !st.hasRecording {
        // The members this call rewrites, worked on in locals and stored at the end.
        var count, has, start := st.recordedSampleCount, st.hasRecording, st.recordStartTime;
        radio.SetFrequency(menu.GetSelectedFrequency());
        radio.SetRxMode();
        if SignalDetected(t.detectRssi) {
          var ok, n := CaptureSignal(t);
          if ok {
            count, has := n, true;
          }
        }
        start := RecordTimeout(start, t.stamp);
        st := st.(recordedSampleCount := count, hasRecording := has, recordStartTime := start);
      }
    }

    /** The 30 s timer at the end of `updateRecord()`: started if unset, and
        on expiry cleared with the menu sent back to Idle. */
    method RecordTimeout(start: u32, stamp: u32) returns (newStart: u32)
      modifies menu`currentMode
      ensures newStart == RecordTimerStep(start, stamp).0
      ensures menu.currentMode == if RecordTimerStep(start, stamp).1 then ModeIdle else old(menu.currentMode)
    {
      newStart := start;
      if newStart == 0 {
        newStart := stamp;
      }
      var elapsed := ElapsedMs(stamp, newStart) / 1000;
      if elapsed >= RECORD_TIMEOUT_S {
        newStart := 0;
        menu.SetMode(ModeIdle);
      }
    }

    /** The capture step of `updateRecord()`: `recordSignal` into the buffer
        and, when it accepts the capture, the count of recorded timings and
        the switch of the menu to Replaying. */
    method CaptureSignal(t: Environment) returns (ok: bool, count: int)
      requires recordedTimings.Length == MAX_RECORDING_SAMPLES
      modifies radio`pin, recordedTimings, menu`currentMode
      ensures radio.pin == PinInput
      ensures menu.currentMode == if ok then ModeReplaying else old(menu.currentMode)
      ensures var c := RecordCapture(t.captureUs, t.captureLevel, t.polls, MAX_RECORDING_SAMPLES);
        && recordedTimings[..] == Overwrite(old(recordedTimings[..]), c.durations)
        && ok == CaptureAccepted(t.captureUs, t.captureLevel, t.polls)
        && (ok ==> count == PositivePrefixLen(recordedTimings[..]))
        && (ok && ClockStrict(t.captureUs, t.polls) &&
            (forall k :: MIN_EDGES <= k < MAX_RECORDING_SAMPLES ==> old(recordedTimings[k]) == 0) ==>
              count == |c.durations|)
      ensures !ok ==> forall k :: MIN_EDGES <= k < MAX_RECORDING_SAMPLES ==> recordedTimings[k] == old(recordedTimings[k])
    {
      ghost var c := RecordCapture(t.captureUs, t.captureLevel, t.polls, MAX_RECORDING_SAMPLES);
      ghost var buf := recordedTimings[..];
      ok := radio.RecordSignal(recordedTimings, MAX_RECORDING_SAMPLES, t.captureUs, t.captureLevel, t.polls);
      RecordCaptureIsWaveform(t.captureUs, t.captureLevel, t.polls, MAX_RECORDING_SAMPLES);
      assert recordedTimings[..] == Overwrite(buf, c.durations) by {
        assert recordedTimings[..] == recordedTimings[..|c.durations|] + recordedTimings[|c.durations|..];
      }
      count := 0;
      if ok {
        count := CountRecorded();
        if ClockStrict(t.captureUs, t.polls) && forall k :: MIN_EDGES <= k < |buf| ==> buf[k] == 0 {
          StrictClockIsMonotone(t.captureUs, t.polls);
          RecordCaptureDurationsFit(t.captureUs, t.captureLevel, t.polls, MAX_RECORDING_SAMPLES);
          CountedPrefixIsCapture(buf, c.durations, MIN_EDGES);
        }
        menu.SetMode(ModeReplaying);
      } else {
        ShortCaptureKeepsTail(buf, c.durations);
      }
    }

    /** The counting loop of `updateRecord()`: the number of leading positive
        entries of the recorded timings. */
    method CountRecorded() returns (count: int)
      ensures count == PositivePrefixLen(recordedTimings[..])
    {
      count := 0;
      var i := 0;
      while i < recordedTimings.Length
        invariant 0 <= i <= recordedTimings.Length && count == i
        invariant forall k :: 0 <= k < i ==> recordedTimings[k] > 0
      {
        if recordedTimings[i] > 0 {
          count := count + 1;
        } else {
          break;
        }
        i := i + 1;
      }
    }

    /** `updateReplay()`: with a recording and button A pressed, sends the
        counted prefix of the recorded timings on the selected frequency. */
    method UpdateReplay(t: Environment)
      requires Valid()
      modifies this`st, radio`currentFrequency, radio`chip, radio`pin, radio`emitted
      ensures Valid()
      ensures st == old(st)
      ensures st.hasRecording && t.buttonA ==>
        && radio.emitted == old(radio.emitted) + ReplayPulses(recordedTimings[..st.recordedSampleCount])
        && radio.currentFrequency == menu.GetSelectedFrequency()
        && radio.pin == PinInput && radio.chip == Receive
      ensures !(st.hasRecording && t.buttonA) ==> unchanged(radio)
    {
      if !st.isTransmitting {
        if st.hasRecording {
          if t.buttonA {
            st := st.(isTransmitting := true);
            radio.SetFrequency(menu.GetSelectedFrequency());
            radio.ReplaySignal(recordedTimings, st.recordedSampleCount);
            st := st.(isTransmitting := false);
          }
        }
      }
    }

    /** What the handler of the mode `f.lastMode` leaves behind when it
        starts from the scalars `f`, the scan readings `scanBefore`, the
        pulses `emittedBefore`, the array contents `historyBefore`,
        `spectrumBefore` and `timingsBefore` and the menu fields `v0`. */
    ghost predicate Handled(f: Scalars, scanBefore: seq<int>, emittedBefore: seq<Pulse>,
                            historyBefore: seq<int>, spectrumBefore: seq<int>, timingsBefore: seq<int>,
                            v0: MenuView, t: Environment, rx: Option<int>)
      requires Valid()
      reads this, menu, radio, rssiHistory, spectrumData, recordedTimings
    {
      var m := f.lastMode;
      && Wellformed(v0)
      && var freq := SelectedFrequency(v0);
      && st.lastMode == m
      && (rx.Some? ==> m == ModeListening)
      && (m == ModeScanning ==>
            && st == ScanTick(f, t.now, t.stamp, t.rssi)
            && rssiHistory[..] == RingOf(scanSamples)
            && scanSamples == scanBefore +
                              (if Due(t.now, f.lastScanUpdate, SCAN_PERIOD_MS) then [t.rssi] else []))
      && (m == ModeSpectrum ==>
            && st == SpectrumTick(f, t.now, t.stamp)
            && (Due(t.now, f.lastSpectrumUpdate, SPECTRUM_PERIOD_MS) ==>
                  forall i :: 0 <= i < SPECTRUM_POINTS ==> spectrumData[i] == t.rssiAt(SpectrumFreq(freq, i))))
      && (m == ModeListening ==>
            && st == ListenTick(f, freq, t.now, t.stamp, SignalDetected(t.detectRssi))
            && st.signalCount == RisingEdges(false, listenTrace)
            && rx == if ListenRising(f, t.now, SignalDetected(t.detectRssi))
                     then Some(ReceiveData(t.frame, RX_BUFFER_SIZE)) else None)
      && (m == ModeRecording ==>
            var captured := !f.hasRecording && SignalDetected(t.detectRssi) &&
                            CaptureAccepted(t.captureUs, t.captureLevel, t.polls);
            && st == RecordTick(f, captured, PositivePrefixLen(recordedTimings[..]), t.stamp)
            && menu.View() == v0.(mode := RecordMode(v0.mode, f, captured, t.stamp)))
      && (m != ModeRecording ==> menu.View() == v0)
      && (m == ModeReplaying || m == ModeIdle ==> st == f)
      && (m == ModeReplaying && st.hasRecording && t.buttonA ==>
            radio.emitted == emittedBefore + ReplayPulses(recordedTimings[..st.recordedSampleCount]))
      && (m == ModeReplaying && !(st.hasRecording && t.buttonA) ==> radio.emitted == emittedBefore)
      && (m != ModeReplaying ==> radio.emitted == emittedBefore)
      && (m != ModeScanning ==> rssiHistory[..] == historyBefore)
      && (m != ModeSpectrum || !Due(t.now, f.lastSpectrumUpdate, SPECTRUM_PERIOD_MS) ==>
            spectrumData[..] == spectrumBefore)
      && recordedTimings[..] ==
           if m == ModeRecording && !f.hasRecording && SignalDetected(t.detectRssi)
           then Overwrite(timingsBefore, RecordCapture(t.captureUs, t.captureLevel, t.polls, MAX_RECORDING_SAMPLES).durations)
           else timingsBefore
    }

    /** What one call of `update()` leaves behind. It started from the
        scalars `before`, the scan readings `scanBefore`, the pulses
        `emittedBefore` and the contents `historyBefore`, `spectrumBefore`
        and `timingsBefore` of the three arrays, with the menu fields `v`;
        `t` is what the hardware answered and `rx` what the call returned.
        The resets are those of the code as written (`EnteredAsWritten`:
        entering Scanning empties the ring, entering Spectrum floors the
        chart), then the handler of `v.mode` acts on the selected
        frequency. */
    ghost predicate UpdatedFrom(before: Scalars, scanBefore: seq<int>, emittedBefore: seq<Pulse>,
                                historyBefore: seq<int>, spectrumBefore: seq<int>, timingsBefore: seq<int>,
                                v: MenuView, t: Environment, rx: Option<int>)
      requires Valid()
      reads this, menu, radio, rssiHistory, spectrumData, recordedTimings
    {
      var m := v.mode;
      var entered := m != before.lastMode;
      Handled(EnteredAsWritten(before, m),
              if entered && m == ModeScanning then [] else scanBefore,
              emittedBefore,
              if entered && m == ModeScanning then EmptyHistory() else historyBefore,
              if entered && m == ModeSpectrum then seq(SPECTRUM_POINTS, _ => RSSI_FLOOR) else spectrumBefore,
              timingsBefore, v, t, rx)
    }

    /** `update()`: the mode-entry resets, then the handler of the mode the
        menu is in. */
    method Update(t: Environment) returns (rx: Option<int>)
      requires Valid()
      modifies this`st, this`scanSamples, this`listenTrace, radio, menu`currentMode,
        rssiHistory, spectrumData, recordedTimings
      ensures Valid()
      ensures UpdatedFrom(old(st), old(scanSamples), old(radio.emitted),
                          old(rssiHistory[..]), old(spectrumData[..]), old(recordedTimings[..]),
                          old(menu.View()), t, rx)
    {
      var mode := menu.GetMode();
      EnterMode(mode);
      rx := Dispatch(t);
    }

    /** The `switch` of `update()`: runs the handler of the mode just entered. */
    method Dispatch(t: Environment) returns (rx: Option<int>)
      requires Valid()
      modifies this`st, this`scanSamples, this`listenTrace, radio, menu`currentMode,
        rssiHistory, spectrumData, recordedTimings
      ensures Valid()
      ensures Handled(old(st), old(scanSamples), old(radio.emitted),
                      old(rssiHistory[..]), old(spectrumData[..]), old(recordedTimings[..]),
                      old(menu.View()), t, rx)
    {
      ghost var f, scanBefore, emittedBefore := st, scanSamples, radio.emitted;
      ghost var historyBefore, spectrumBefore, timingsBefore := rssiHistory[..], spectrumData[..], recordedTimings[..];
      ghost var v0 := menu.View();
      rx := None;
      match st.lastMode
      case ModeScanning =>
        UpdateScan(t);
        assert Handled(f, scanBefore, emittedBefore, historyBefore, spectrumBefore, timingsBefore, v0, t, rx);
      case ModeSpectrum =>
        UpdateSpectrum(t);
        assert Handled(f, scanBefore, emittedBefore, historyBefore, spectrumBefore, timingsBefore, v0, t, rx);
      case ModeListening =>
        rx := UpdateListen(t);
        assert Handled(f, scanBefore, emittedBefore, historyBefore, spectrumBefore, timingsBefore, v0, t, rx);
      case ModeRecording =>
        UpdateRecord(t);
        assert Handled(f, scanBefore, emittedBefore, historyBefore, spectrumBefore, timingsBefore, v0, t, rx);
      case ModeReplaying =>
        UpdateReplay(t);
        assert Handled(f, scanBefore, emittedBefore, historyBefore, spectrumBefore, timingsBefore, v0, t, rx);
      case ModeIdle =>
        assert Handled(f, scanBefore, emittedBefore, historyBefore, spectrumBefore, timingsBefore, v0, t, rx);
    }
  }

  /** A clock that always advances never runs backwards. */
  lemma StrictClockIsMonotone(startUs: nat, polls: seq<Poll>)
    requires ClockStrict(startUs, polls)
    ensures ClockMonotone(startUs, polls)
  {
  }
}
