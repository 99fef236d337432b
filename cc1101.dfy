/** The CC1101 transceiver facade and its raw capture/replay engine.

    The ELECHOUSE driver, the SPI bus, the data pin (GDO0) and the clocks are
    not modelled as code; what they return is passed in:
    - an RSSI reading is an `int` argument, and a frequency sweep reads
      `rssiAt(f)`, the strength the radio reports once tuned to `f`;
    - a capture observes a finite trace of polls, each the time (in
      microseconds) and the pin level that one pass of the poll loop sees;
    - what the pin emits in output mode is appended to the field `emitted`. */
module Radio {
  import opened Common

  datatype ModuleType = Module2In1 | ModuleStandard

  /** The transceiver state the last strobe left it in (`Unknown`: no strobe yet). */
  datatype ChipMode = Unknown | Receive | Transmit

  /** Direction of the GDO0 data pin. */
  datatype PinMode = PinInput | PinOutput

  const LOW: bool := false
  const HIGH: bool := true

  const FREQ_433_MHZ: real := 433.92

  /** `signalDetected()` fires strictly above this RSSI, in dBm. */
  const DETECT_THRESHOLD_DBM: int := -70
  /** Overall capture window, in milliseconds. */
  const CAPTURE_WINDOW_MS: nat := 5000
  /** Silence after the last edge that ends a capture, in microseconds. */
  const SILENCE_US: nat := 100000
  /** A capture with this many edges or fewer is noise. */
  const MIN_EDGES: nat := 10

  predicate SignalDetected(rssi: int) {
    rssi > DETECT_THRESHOLD_DBM
  }

  /** The detection test is a threshold: readings of -69 dBm and above fire,
      and a stronger reading never fires less. */
  lemma SignalDetectedThreshold(rssi: int, stronger: int)
    requires rssi <= stronger
    ensures SignalDetected(rssi) <==> rssi >= -69
    ensures SignalDetected(rssi) ==> SignalDetected(stronger)
  {
  }

  /** `receiveData(buffer, maxLen)`. `queued` is what the driver reports:
      `None` when no frame is in the FIFO within its 100 ms poll, `Some(n)`
      when it hands over a frame of length `n`. */
  function ReceiveData(queued: Option<int>, maxLen: int): (len: int)
    ensures len == 0 || 0 < len <= maxLen
    ensures len != 0 ==> queued == Some(len)
    ensures queued.Some? && 0 < queued.value <= maxLen ==> len == queued.value
  {
    match queued
    case None => 0
    case Some(n) => if 0 < n && n <= maxLen then n else 0
  }

  // ---------------------------------------------------------------------
  // Capture: reference definition of the observed waveform

  /** One pass of the capture poll loop: the clock and the pin level it reads. */
  datatype Poll = Poll(us: nat, level: bool)

  /** A level held on the pin for `holdUs` microseconds. */
  datatype Pulse = Pulse(level: bool, holdUs: int)

  /** Level the pin had just before poll `j`; `startLevel` is the level read
      when the capture starts. */
  function LevelBefore(startLevel: bool, polls: seq<Poll>, j: nat): bool
    requires j <= |polls|
  {
    if j == 0 then startLevel else polls[j - 1].level
  }

  predicate IsEdge(startLevel: bool, polls: seq<Poll>, j: nat)
    requires j < |polls|
  {
    polls[j].level != LevelBefore(startLevel, polls, j)
  }

  /** Time of the last level change among the first `n` polls, or the start
      time when there is none. */
  function LastChangeUs(startUs: nat, startLevel: bool, polls: seq<Poll>, n: nat): int
    requires n <= |polls|
  {
    if n == 0 then startUs
    else if IsEdge(startLevel, polls, n - 1) then polls[n - 1].us
    else LastChangeUs(startUs, startLevel, polls, n - 1)
  }

  /** The waveform seen in the first `n` polls: one pulse per level change,
      giving the level that was held and for how long it was held. */
  function Waveform(startUs: nat, startLevel: bool, polls: seq<Poll>, n: nat): seq<Pulse>
    requires n <= |polls|
  {
    if n == 0 then []
    else
      Waveform(startUs, startLevel, polls, n - 1) +
      if IsEdge(startLevel, polls, n - 1) then
        [Pulse(LevelBefore(startLevel, polls, n - 1),
               polls[n - 1].us - LastChangeUs(startUs, startLevel, polls, n - 1))]
      else []
  }

  function Holds(w: seq<Pulse>): (d: seq<int>)
    ensures |d| == |w| && forall i :: 0 <= i < |w| ==> d[i] == w[i].holdUs
  {
    seq(|w|, i requires 0 <= i < |w| => w[i].holdUs)
  }

  /** After the first `n` polls the loop has seen silence long enough to stop. */
  predicate SilentAfter(startUs: nat, startLevel: bool, polls: seq<Poll>, n: nat)
    requires n <= |polls|
  {
    0 < n && |Waveform(startUs, startLevel, polls, n)| > 0 &&
    polls[n - 1].us - LastChangeUs(startUs, startLevel, polls, n) > SILENCE_US
  }

  /** The clock never runs backwards. */
  ghost predicate ClockMonotone(startUs: nat, polls: seq<Poll>) {
    (forall j :: 0 <= j < |polls| ==> startUs <= polls[j].us) &&
    (forall j, k :: 0 <= j < k < |polls| ==> polls[j].us <= polls[k].us)
  }

  /** Every poll reads a later microsecond than the one before. */
  ghost predicate ClockStrict(startUs: nat, polls: seq<Poll>) {
    (forall j :: 0 <= j < |polls| ==> startUs < polls[j].us) &&
    (forall j, k :: 0 <= j < k < |polls| ==> polls[j].us < polls[k].us)
  }

  // ---------------------------------------------------------------------
  // Capture: the poll loop of recordSignal as a function

  datatype StopReason = Full | TraceEnd | Deadline | Silence

  /** The outcome of a capture: the recorded durations, why the loop ended
      and how many polls it read. */
  datatype Capture = Capture(durations: seq<int>, stop: StopReason, polled: nat)

  function CaptureDeadlineMs(startUs: nat): nat {
    startUs / 1000 + CAPTURE_WINDOW_MS
  }

  /** The loop from poll `i` on, with the loop's variables `lastUs`
      (`lastTime`), `lastLevel` (`lastState`) and the durations so far. */
  function CaptureLoop(polls: seq<Poll>, maxSamples: int, deadlineMs: int, i: nat,
                       lastUs: int, lastLevel: bool, acc: seq<int>): Capture
    requires i <= |polls|
    decreases |polls| - i
  {
    if |acc| >= maxSamples then Capture(acc, Full, i)
    else if i == |polls| then Capture(acc, TraceEnd, i)
    else if polls[i].us / 1000 >= deadlineMs then Capture(acc, Deadline, i)
    else
      var p := polls[i];
      var edge := p.level != lastLevel;
      var acc' := if edge then acc + [p.us - lastUs] else acc;
      var lastUs' := if edge then p.us else lastUs;
      var lastLevel' := if edge then p.level else lastLevel;
      if |acc'| > 0 && p.us - lastUs' > SILENCE_US then Capture(acc', Silence, i + 1)
      else CaptureLoop(polls, maxSamples, deadlineMs, i + 1, lastUs', lastLevel', acc')
  }

  /** What `recordSignal(timings, maxSamples)` records when it starts at
      `startUs` reading `startLevel` and then sees `polls`. */
  function RecordCapture(startUs: nat, startLevel: bool, polls: seq<Poll>, maxSamples: int): Capture {
    CaptureLoop(polls, maxSamples, CaptureDeadlineMs(startUs), 0, startUs, startLevel, [])
  }

  lemma HoldsAppend(w: seq<Pulse>, p: Pulse)
    ensures Holds(w + [p]) == Holds(w) + [p.holdUs]
  {
  }

  /** The loop's state after `i` polls, as the reference definition gives it. */
  function LoopFrom(startUs: nat, startLevel: bool, polls: seq<Poll>, maxSamples: int, i: nat): Capture
    requires i <= |polls|
  {
    CaptureLoop(polls, maxSamples, CaptureDeadlineMs(startUs), i,
                LastChangeUs(startUs, startLevel, polls, i), LevelBefore(startLevel, polls, i),
                Holds(Waveform(startUs, startLevel, polls, i)))
  }

  /** The loop goes on after `i` polls: room left, a poll left, deadline not reached. */
  predicate Continues(startUs: nat, startLevel: bool, polls: seq<Poll>, maxSamples: int, i: nat)
    requires i <= |polls|
  {
    |Waveform(startUs, startLevel, polls, i)| < maxSamples && i < |polls| &&
    polls[i].us / 1000 < CaptureDeadlineMs(startUs)
  }

  /** One pass of the loop: it reads poll `i`, records exactly the change the
      reference definition sees there, and stops when silence is reached. */
  lemma CaptureStep(startUs: nat, startLevel: bool, polls: seq<Poll>, maxSamples: int, i: nat)
    requires i <= |polls|
    ensures !Continues(startUs, startLevel, polls, maxSamples, i) ==>
      LoopFrom(startUs, startLevel, polls, maxSamples, i) ==
        Capture(Holds(Waveform(startUs, startLevel, polls, i)),
                if |Waveform(startUs, startLevel, polls, i)| >= maxSamples then Full
                else if i == |polls| then TraceEnd else Deadline, i)
    ensures Continues(startUs, startLevel, polls, maxSamples, i) ==>
      LoopFrom(startUs, startLevel, polls, maxSamples, i) ==
        if SilentAfter(startUs, startLevel, polls, i + 1)
        then Capture(Holds(Waveform(startUs, startLevel, polls, i + 1)), Silence, i + 1)
        else LoopFrom(startUs, startLevel, polls, maxSamples, i + 1)
  {
    if Continues(startUs, startLevel, polls, maxSamples, i) {
      var w := Waveform(startUs, startLevel, polls, i);
      var lastUs := LastChangeUs(startUs, startLevel, polls, i);
      var lastLevel := LevelBefore(startLevel, polls, i);
      var p := polls[i];
      var edge := p.level != lastLevel;
      assert edge == IsEdge(startLevel, polls, i);
      var acc' := if edge then Holds(w) + [p.us - lastUs] else Holds(w);
      var lastUs' := if edge then p.us else lastUs;
      var lastLevel' := if edge then p.level else lastLevel;
      if edge {
        HoldsAppend(w, Pulse(lastLevel, p.us - lastUs));
      }
      assert acc' == Holds(Waveform(startUs, startLevel, polls, i + 1));
      assert lastUs' == LastChangeUs(startUs, startLevel, polls, i + 1);
      assert lastLevel' == LevelBefore(startLevel, polls, i + 1);
      assert (|acc'| > 0 && p.us - lastUs' > SILENCE_US) == SilentAfter(startUs, startLevel, polls, i + 1);
    }
  }

  /** The loop records exactly the waveform of the polls it reads, never more
      than `maxSamples` durations, and stops for the reason it reports. */
  lemma {:induction false} LoopRecordsWaveform(startUs: nat, startLevel: bool, polls: seq<Poll>, maxSamples: int, i: nat)
    requires i <= |polls|
    requires |Waveform(startUs, startLevel, polls, i)| == 0 || |Waveform(startUs, startLevel, polls, i)| <= maxSamples
    ensures var c := LoopFrom(startUs, startLevel, polls, maxSamples, i);
      && i <= c.polled <= |polls|
      && c.durations == Holds(Waveform(startUs, startLevel, polls, c.polled))
      && (|c.durations| == 0 || |c.durations| <= maxSamples)
      && (c.stop == Full <==> |c.durations| >= maxSamples)
      && (c.stop == TraceEnd ==> c.polled == |polls|)
      && (c.stop == Deadline ==> c.polled < |polls| && polls[c.polled].us / 1000 >= CaptureDeadlineMs(startUs))
      && (c.stop == Silence ==> SilentAfter(startUs, startLevel, polls, c.polled))
    decreases |polls| - i
  {
    CaptureStep(startUs, startLevel, polls, maxSamples, i);
    if Continues(startUs, startLevel, polls, maxSamples, i) && !SilentAfter(startUs, startLevel, polls, i + 1) {
      LoopRecordsWaveform(startUs, startLevel, polls, maxSamples, i + 1);
    }
  }

  /** The loop does not stop before the reason it reports: every poll it read
      was before the deadline and found room in the buffer, and silence was
      reached at most on the last one. */
  lemma {:induction false} LoopStopsNoEarlier(startUs: nat, startLevel: bool, polls: seq<Poll>, maxSamples: int, i: nat)
    requires i <= |polls|
    ensures var c := LoopFrom(startUs, startLevel, polls, maxSamples, i);
      && i <= c.polled <= |polls|
      && (c.stop == Silence ==> c.polled > i)
      && (forall j :: i <= j < c.polled ==> polls[j].us / 1000 < CaptureDeadlineMs(startUs))
      && (forall j :: i <= j < c.polled ==> |Waveform(startUs, startLevel, polls, j)| < maxSamples)
      && (forall n :: i < n <= c.polled && (n < c.polled || c.stop != Silence) ==>
            !SilentAfter(startUs, startLevel, polls, n))
    decreases |polls| - i
  {
    CaptureStep(startUs, startLevel, polls, maxSamples, i);
    if Continues(startUs, startLevel, polls, maxSamples, i) && !SilentAfter(startUs, startLevel, polls, i + 1) {
      LoopStopsNoEarlier(startUs, startLevel, polls, maxSamples, i + 1);
    }
  }

  // ---------------------------------------------------------------------
  // Properties of the recorded waveform

  /** Every change flips the level, so the recorded pulses alternate, starting
      with the level read when the capture began. */
  lemma {:induction false} WaveformLevelsAlternate(startUs: nat, startLevel: bool, polls: seq<Poll>, n: nat)
    requires n <= |polls|
    ensures var w := Waveform(startUs, startLevel, polls, n);
      && (forall m :: 0 <= m < |w| ==> w[m].level == (startLevel != (m % 2 == 1)))
      && LevelBefore(startLevel, polls, n) == (startLevel != (|w| % 2 == 1))
  {
    if n > 0 {
      WaveformLevelsAlternate(startUs, startLevel, polls, n - 1);
    }
  }

  lemma {:induction false} LastChangeBounds(startUs: nat, startLevel: bool, polls: seq<Poll>, n: nat)
    requires n <= |polls|
    requires ClockMonotone(startUs, polls)
    ensures startUs <= LastChangeUs(startUs, startLevel, polls, n)
    ensures n < |polls| ==> LastChangeUs(startUs, startLevel, polls, n) <= polls[n].us
    ensures n < |polls| && ClockStrict(startUs, polls) ==> LastChangeUs(startUs, startLevel, polls, n) < polls[n].us
  {
    if n > 0 {
      LastChangeBounds(startUs, startLevel, polls, n - 1);
    }
  }

  /** Every pulse of `w` is held for at least `lo` and less than `hi` microseconds. */
  predicate HoldsWithin(w: seq<Pulse>, lo: int, hi: int) {
    forall m :: 0 <= m < |w| ==> lo <= w[m].holdUs < hi
  }

  /** With a clock that never runs backwards, every hold time read before the
      deadline lies in [0, 5 000 000) microseconds; with a clock that always
      advances, every hold time is positive. */
  lemma {:induction false} WaveformHoldsBounded(startUs: nat, startLevel: bool, polls: seq<Poll>, n: nat)
    requires n <= |polls|
    requires ClockMonotone(startUs, polls)
    requires forall j :: 0 <= j < n ==> polls[j].us / 1000 < CaptureDeadlineMs(startUs)
    ensures HoldsWithin(Waveform(startUs, startLevel, polls, n), 0, 5000000)
    ensures ClockStrict(startUs, polls) ==> HoldsWithin(Waveform(startUs, startLevel, polls, n), 1, 5000000)
  {
    if n > 0 {
      WaveformHoldsBounded(startUs, startLevel, polls, n - 1);
      LastChangeBounds(startUs, startLevel, polls, n - 1);
      var t := polls[n - 1].us;
      assert t / 1000 < startUs / 1000 + CAPTURE_WINDOW_MS;
      assert t < startUs + 5000000;
    }
  }

  // ---------------------------------------------------------------------
  // What recordSignal records

  lemma LoopFromStart(startUs: nat, startLevel: bool, polls: seq<Poll>, maxSamples: int)
    ensures LoopFrom(startUs, startLevel, polls, maxSamples, 0) == RecordCapture(startUs, startLevel, polls, maxSamples)
  {
    assert Holds(Waveform(startUs, startLevel, polls, 0)) == [];
  }

  /** A capture records one duration per level change it observes, at most
      `maxSamples` of them: the first is the time from the start of the capture
      to the first change, each later one the time since the change before. */
  lemma RecordCaptureIsWaveform(startUs: nat, startLevel: bool, polls: seq<Poll>, maxSamples: int)
    ensures var c := RecordCapture(startUs, startLevel, polls, maxSamples);
      && c.polled <= |polls|
      && c.durations == Holds(Waveform(startUs, startLevel, polls, c.polled))
      && |c.durations| <= (if maxSamples < 0 then 0 else maxSamples)
  {
    LoopFromStart(startUs, startLevel, polls, maxSamples);
    LoopRecordsWaveform(startUs, startLevel, polls, maxSamples, 0);
  }

  /** A capture stops when the buffer is full, when the 5 s window closes, or
      once at least one change is recorded and more than 100 000 us pass
      without another (besides running out of polls); and not before. */
  lemma RecordCaptureStopReason(startUs: nat, startLevel: bool, polls: seq<Poll>, maxSamples: int)
    ensures var c := RecordCapture(startUs, startLevel, polls, maxSamples);
      && c.polled <= |polls|
      && (c.stop == Full <==> |c.durations| >= maxSamples)
      && (c.stop == TraceEnd ==> c.polled == |polls|)
      && (c.stop == Deadline ==> c.polled < |polls| && polls[c.polled].us / 1000 >= startUs / 1000 + 5000)
      && (c.stop == Silence ==> SilentAfter(startUs, startLevel, polls, c.polled))
      && (forall j :: 0 <= j < c.polled ==> polls[j].us / 1000 < startUs / 1000 + 5000)
      && (forall n :: 0 <= n < c.polled ==> |Waveform(startUs, startLevel, polls, n)| < maxSamples)
      && (forall n :: 0 < n <= c.polled && (n < c.polled || c.stop != Silence) ==>
            !SilentAfter(startUs, startLevel, polls, n))
  {
    LoopFromStart(startUs, startLevel, polls, maxSamples);
    LoopRecordsWaveform(startUs, startLevel, polls, maxSamples, 0);
    LoopStopsNoEarlier(startUs, startLevel, polls, maxSamples, 0);
  }

  /** The source stores each `unsigned long` difference into an `int`: with a
      clock that never runs backwards none of them is negative or anywhere near
      2^31, and with a clock that always advances all of them are positive. */
  lemma RecordCaptureDurationsFit(startUs: nat, startLevel: bool, polls: seq<Poll>, maxSamples: int)
    requires ClockMonotone(startUs, polls)
    ensures forall m :: 0 <= m < |RecordCapture(startUs, startLevel, polls, maxSamples).durations| ==>
      0 <= RecordCapture(startUs, startLevel, polls, maxSamples).durations[m] < 5000000
    ensures ClockStrict(startUs, polls) ==>
      forall m :: 0 <= m < |RecordCapture(startUs, startLevel, polls, maxSamples).durations| ==>
        0 < RecordCapture(startUs, startLevel, polls, maxSamples).durations[m]
  {
    var c := RecordCapture(startUs, startLevel, polls, maxSamples);
    RecordCaptureIsWaveform(startUs, startLevel, polls, maxSamples);
    RecordCaptureStopReason(startUs, startLevel, polls, maxSamples);
    WaveformHoldsBounded(startUs, startLevel, polls, c.polled);
  }

  // ---------------------------------------------------------------------
  // Replay

  /** The pulses `replaySignal` emits from `level` on: each write of the
      current level is followed by the delay of its timing, then the level
      toggles. */
  function ReplayFrom(level: bool, timings: seq<int>): seq<Pulse>
    decreases |timings|
  {
    if timings == [] then [] else [Pulse(level, timings[0])] + ReplayFrom(!level, timings[1..])
  }

  function ReplayPulses(timings: seq<int>): seq<Pulse> {
    ReplayFrom(LOW, timings)
  }

  lemma {:induction false} ReplayFromShape(level: bool, timings: seq<int>)
    ensures |ReplayFrom(level, timings)| == |timings|
    ensures forall i :: 0 <= i < |timings| ==>
      ReplayFrom(level, timings)[i] == Pulse(level != (i % 2 == 1), timings[i])
    decreases |timings|
  {
    if timings != [] {
      ReplayFromShape(!level, timings[1..]);
    }
  }

  /** Replay writes exactly one level per timing, alternating and starting
      LOW, each held for its timing. */
  lemma ReplayPulsesShape(timings: seq<int>)
    ensures |ReplayPulses(timings)| == |timings|
    ensures forall i :: 0 <= i < |timings| ==> ReplayPulses(timings)[i].holdUs == timings[i]
    ensures forall i :: 0 <= i < |timings| ==> ReplayPulses(timings)[i].level == (i % 2 == 1)
    ensures timings != [] ==> ReplayPulses(timings)[0].level == LOW
  {
    ReplayFromShape(LOW, timings);
  }

  /** Round trip: replaying a capture reproduces the observed waveform, levels
      and hold times, exactly when the capture began on a LOW pin (or saw no
      change); a capture that began HIGH is replayed with every level
      inverted. */
  lemma ReplayReproducesCapture(startUs: nat, startLevel: bool, polls: seq<Poll>, maxSamples: int)
    ensures RecordCapture(startUs, startLevel, polls, maxSamples).polled <= |polls|
    ensures var c := RecordCapture(startUs, startLevel, polls, maxSamples);
      var w := Waveform(startUs, startLevel, polls, c.polled);
      && |ReplayPulses(c.durations)| == |w|
      && (forall m :: 0 <= m < |w| ==> ReplayPulses(c.durations)[m].holdUs == w[m].holdUs)
      && (forall m :: 0 <= m < |w| ==> ReplayPulses(c.durations)[m].level == (w[m].level != startLevel))
      && (ReplayPulses(c.durations) == w <==> startLevel == LOW || c.durations == [])
  {
    var c := RecordCapture(startUs, startLevel, polls, maxSamples);
    RecordCaptureIsWaveform(startUs, startLevel, polls, maxSamples);
    var w := Waveform(startUs, startLevel, polls, c.polled);
    WaveformLevelsAlternate(startUs, startLevel, polls, c.polled);
    ReplayPulsesShape(c.durations);
    if startLevel == LOW {
      assert forall m :: 0 <= m < |w| ==> ReplayPulses(c.durations)[m] == w[m];
    }
  }

  // ---------------------------------------------------------------------
  // The facade object

  /** The `i`-th frequency of a sweep; the source accumulates `freq += step`,
      which on reals is exactly this. */
  function SweepFreq(startFreq: real, step: real, i: int): real {
    startFreq + i as real * step
  }

  class CC1101 {
    var currentFrequency: real
    var initialized: bool
    /** What the driver's last strobe left the transceiver in. */
    var chip: ChipMode
    /** Direction of GDO0. */
    var pin: PinMode
    /** Every level written to GDO0, with the delay that followed it. */
    var emitted: seq<Pulse>

    constructor ()
      ensures currentFrequency == FREQ_433_MHZ && !initialized
      ensures chip == Unknown && pin == PinInput && emitted == []
    {
      currentFrequency := FREQ_433_MHZ;
      initialized := false;
      chip := Unknown;
      pin := PinInput;
      emitted := [];
    }

    method SetFrequency(freq: real)
      modifies this`currentFrequency
      ensures GetFrequency() == freq
    {
      currentFrequency := freq;
    }

    function GetFrequency(): real
      reads this
    {
      currentFrequency
    }

    /** `startScan()` and `setRxMode()`: both strobe the receiver on. */
    method SetRxMode()
      modifies this`chip
      ensures chip == Receive
    {
      chip := Receive;
    }

    method SetTxMode()
      modifies this`chip
      ensures chip == Transmit
    {
      chip := Transmit;
    }

    /** `scanSpectrum`: tunes to `startFreq`, `startFreq + step`, ... while
        fewer than `numPoints` points are done and the frequency is at most
        `endFreq`, storing the strength read at each. `filled` is the number
        of points written. */
    method ScanSpectrum(startFreq: real, endFreq: real, step: real, rssiValues: array<int>,
                        numPoints: int, rssiAt: real -> int) returns (ghost filled: nat)
      requires numPoints <= rssiValues.Length
      modifies this`currentFrequency, rssiValues
      ensures filled == 0 || filled <= numPoints
      ensures forall i :: 0 <= i < filled ==> SweepFreq(startFreq, step, i) <= endFreq
      ensures filled < numPoints ==> SweepFreq(startFreq, step, filled) > endFreq
      ensures forall i :: 0 <= i < filled ==> rssiValues[i] == rssiAt(SweepFreq(startFreq, step, i))
      ensures forall i :: filled <= i < rssiValues.Length ==> rssiValues[i] == old(rssiValues[i])
      ensures filled > 0 ==> currentFrequency == SweepFreq(startFreq, step, filled - 1)
      ensures filled == 0 ==> currentFrequency == old(currentFrequency)
    {
      var freq := startFreq;
      var i := 0;
      while i < numPoints && freq <= endFreq
        invariant 0 <= i && (i == 0 || i <= numPoints)
        invariant freq == SweepFreq(startFreq, step, i)
        invariant forall k :: 0 <= k < i ==> SweepFreq(startFreq, step, k) <= endFreq
        invariant forall k :: 0 <= k < i ==> rssiValues[k] == rssiAt(SweepFreq(startFreq, step, k))
        invariant forall k :: i <= k < rssiValues.Length ==> rssiValues[k] == old(rssiValues[k])
        invariant i > 0 ==> currentFrequency == SweepFreq(startFreq, step, i - 1)
        invariant i == 0 ==> currentFrequency == old(currentFrequency)
      {
        SetFrequency(freq);
        rssiValues[i] := rssiAt(currentFrequency);
        freq := freq + step;
        i := i + 1;
      }
      filled := i;
    }

    /** `recordSignal(timings, maxSamples)`: the capture begins at `startUs`
        reading `startLevel` and then sees `polls`. The recorded durations are
        those of `RecordCapture`; the entries after them are left as they were;
        the result says whether more than 10 changes were recorded. */
    method RecordSignal(timings: array<int>, maxSamples: int, startUs: nat, startLevel: bool,
                        polls: seq<Poll>) returns (ok: bool)
      requires maxSamples <= timings.Length
      modifies this`pin, timings
      ensures pin == PinInput
      ensures var c := RecordCapture(startUs, startLevel, polls, maxSamples);
        && |c.durations| <= timings.Length
        && timings[..|c.durations|] == c.durations
        && (forall k :: |c.durations| <= k < timings.Length ==> timings[k] == old(timings[k]))
        && ok == (|c.durations| > MIN_EDGES)
    {
      var sampleCount := 0;
      var lastTime: int := startUs;
      var timeout := startUs / 1000 + CAPTURE_WINDOW_MS;
      pin := PinInput;
      var lastState := startLevel;
      var i := 0;
      ghost var spec := RecordCapture(startUs, startLevel, polls, maxSamples);
      ghost var stopped := false;
      while sampleCount < maxSamples && i < |polls| && polls[i].us / 1000 < timeout
        invariant 0 <= i <= |polls|
        invariant 0 <= sampleCount <= timings.Length
        invariant pin == PinInput
        invariant CaptureLoop(polls, maxSamples, timeout, i, lastTime, lastState, timings[..sampleCount]) == spec
        invariant forall k :: sampleCount <= k < timings.Length ==> timings[k] == old(timings[k])
      {
        var state := polls[i].level;
        var now := polls[i].us;
        ghost var acc := timings[..sampleCount];
        if state != lastState {
          timings[sampleCount] := now - lastTime;
          sampleCount := sampleCount + 1;
          assert timings[..sampleCount] == acc + [now - lastTime];
          lastTime := now;
          lastState := state;
        }
        i := i + 1;
        if sampleCount > 0 && now - lastTime > SILENCE_US {
          // 100 ms of silence: the signal is complete
          assert spec == Capture(timings[..sampleCount], Silence, i);
          break;
        }
      }
      ok := sampleCount > MIN_EDGES;
    }

    /** `replaySignal(timings, numSamples)`: drives GDO0 with the pulses of
        `ReplayPulses` for the first `numSamples` timings, then returns the
        pin to input and the radio to receive. */
    method ReplaySignal(timings: array<int>, numSamples: int)
      requires numSamples <= timings.Length
      modifies this`pin, this`chip, this`emitted
      ensures emitted == old(emitted) + ReplayPulses(timings[..if numSamples < 0 then 0 else numSamples])
      ensures pin == PinInput && chip == Receive
    {
      ghost var n := if numSamples < 0 then 0 else numSamples;
      pin := PinOutput;
      SetTxMode();
      var state := LOW;
      var i := 0;
      while i < numSamples
        invariant 0 <= i <= n
        invariant emitted + ReplayFrom(state, timings[i..n]) == old(emitted) + ReplayPulses(timings[..n])
      {
        assert timings[i..n][1..] == timings[i + 1..n];
        emitted := emitted + [Pulse(state, timings[i])];
        state := !state;
        i := i + 1;
      }
      assert timings[i..n] == [];
      pin := PinInput;
      SetRxMode();
    }
  }
}
