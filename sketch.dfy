/** The Arduino sketch: the splash screen's conversion of the 24-bit orca
    image to RGB565 rows, and the main loop's decision when to redraw the
    menu. Drawing itself is not modelled; a pushed row is returned instead. */
module Sketch {
  import opened Common
  import opened Radio
  import opened Menu
  import opened Operations

  // ---------------------------------------------------------------------
  // RGB565

  /** `((r & 0xF8) << 8) | ((g & 0xFC) << 3) | (b >> 3)` as it lands in the
      `uint16_t` line buffer. */
  function Pack565(r: bv8, g: bv8, b: bv8): bv16 {
    (((r as bv16) & 0xF8) << 8) | (((g as bv16) & 0xFC) << 3) | ((b as bv16) >> 3)
  }

  /** The same expression as C evaluates it, on the 32-bit `int` the bytes
      are promoted to. */
  function Pack565Int(r: bv8, g: bv8, b: bv8): bv32 {
    (((r as bv32) & 0xF8) << 8) | (((g as bv32) & 0xFC) << 3) | ((b as bv32) >> 3)
  }

  /** The `int` result fits in 16 bits, so storing it into the line buffer
      truncates nothing. */
  lemma Pack565FitsUint16(r: bv8, g: bv8, b: bv8)
    ensures Pack565Int(r, g, b) < 0x1_0000
    ensures Pack565Int(r, g, b) == Pack565(r, g, b) as bv32
  {
  }

  /** Bits 15..11 hold the top five bits of red, 10..5 the top six of green
      and 4..0 the top five of blue. */
  lemma Pack565Fields(r: bv8, g: bv8, b: bv8)
    ensures Pack565(r, g, b) >> 11 == (r >> 3) as bv16
    ensures (Pack565(r, g, b) >> 5) & 0x3F == (g >> 2) as bv16
    ensures Pack565(r, g, b) & 0x1F == (b >> 3) as bv16
  {
  }

  /** The three shifted fields share no bit. */
  lemma Pack565FieldsDisjoint(r: bv8, g: bv8, b: bv8)
    ensures (((r as bv16) & 0xF8) << 8) & (((g as bv16) & 0xFC) << 3) == 0
    ensures (((r as bv16) & 0xF8) << 8) & ((b as bv16) >> 3) == 0
    ensures (((g as bv16) & 0xFC) << 3) & ((b as bv16) >> 3) == 0
  {
  }

  /** The colour a 16-bit pixel stands for, each channel widened back to a
      byte with its dropped low bits zero. */
  function Unpack565(p: bv16): (bv8, bv8, bv8) {
    ((((p >> 11) & 0x1F) << 3) as bv8, (((p >> 5) & 0x3F) << 2) as bv8, ((p & 0x1F) << 3) as bv8)
  }

  /** Packing keeps exactly the top bits of each channel ... */
  lemma UnpackPack(r: bv8, g: bv8, b: bv8)
    ensures Unpack565(Pack565(r, g, b)) == (r & 0xF8, g & 0xFC, b & 0xF8)
  {
  }

  /** ... and every 16-bit pixel is the packing of its own colour. */
  lemma PackUnpack(p: bv16)
    ensures Pack565(Unpack565(p).0, Unpack565(p).1, Unpack565(p).2) == p
  {
  }

  // ---------------------------------------------------------------------
  // The splash image

  const IMAGE_WIDTH: int := 240
  const IMAGE_HEIGHT: int := 135
  /** The size `image_data_orca_m5` is declared with. */
  const IMAGE_BYTES: int := 97200

  /** Where pixel (`x`, `y`) starts in the image: three bytes per pixel,
      rows of 240 pixels. */
  function PixelIndex(y: int, x: int): int {
    (y * IMAGE_WIDTH + x) * 3
  }

  predicate OnScreen(y: int, x: int) {
    0 <= y < IMAGE_HEIGHT && 0 <= x < IMAGE_WIDTH
  }

  /** All three bytes of an on-screen pixel lie inside the image, and the
      last pixel ends exactly at its last byte. */
  lemma PixelIndexInBounds(y: int, x: int)
    requires OnScreen(y, x)
    ensures 0 <= PixelIndex(y, x) && PixelIndex(y, x) + 2 < IMAGE_BYTES
  {
    assert y * IMAGE_WIDTH <= (IMAGE_HEIGHT - 1) * IMAGE_WIDTH;
  }

  lemma LastPixelEndsTheImage()
    ensures PixelIndex(IMAGE_HEIGHT - 1, IMAGE_WIDTH - 1) + 3 == IMAGE_BYTES
  {
  }

  /** Different pixels read disjoint byte triples. */
  lemma PixelsDoNotShareBytes(y1: int, x1: int, y2: int, x2: int)
    requires OnScreen(y1, x1) && OnScreen(y2, x2) && (y1, x1) != (y2, x2)
    ensures PixelIndex(y1, x1) + 3 <= PixelIndex(y2, x2) || PixelIndex(y2, x2) + 3 <= PixelIndex(y1, x1)
  {
    if y1 < y2 {
      assert y1 * IMAGE_WIDTH + IMAGE_WIDTH <= y2 * IMAGE_WIDTH;
    } else if y2 < y1 {
      assert y2 * IMAGE_WIDTH + IMAGE_WIDTH <= y1 * IMAGE_WIDTH;
    }
  }

  /** The RGB565 value of pixel (`x`, `y`) of `image`, as stored. */
  function SplashPixel(image: seq<bv8>, y: int, x: int): bv16
    requires |image| == IMAGE_BYTES && OnScreen(y, x)
  {
    PixelIndexInBounds(y, x);
    var i := PixelIndex(y, x);
    Pack565(image[i], image[i + 1], image[i + 2])
  }

  /** Row `y` of the splash screen. */
  function SplashRow(image: seq<bv8>, y: int): (row: seq<bv16>)
    requires |image| == IMAGE_BYTES && 0 <= y < IMAGE_HEIGHT
    ensures |row| == IMAGE_WIDTH
  {
    seq(IMAGE_WIDTH, x requires 0 <= x < IMAGE_WIDTH => SplashPixel(image, y, x))
  }

  /** The fields of every entry of a row are the top bits of the pixel's
      three bytes. */
  lemma SplashRowIsRgb565(image: seq<bv8>, y: int, x: int)
    requires |image| == IMAGE_BYTES && OnScreen(y, x)
    ensures var i := PixelIndex(y, x);
      Unpack565(SplashRow(image, y)[x]) == (image[i] & 0xF8, image[i + 1] & 0xFC, image[i + 2] & 0xF8)
  {
    PixelIndexInBounds(y, x);
    var i := PixelIndex(y, x);
    UnpackPack(image[i], image[i + 1], image[i + 2]);
  }

  /** `showSplashScreen()`: each of the 135 rows is converted into the
      240-entry `lineBuffer` and then pushed; `rows` are the pushed rows. */
  method ShowSplashScreen(image: seq<bv8>) returns (rows: seq<seq<bv16>>)
    requires |image| == IMAGE_BYTES
    ensures |rows| == IMAGE_HEIGHT
    ensures forall y :: 0 <= y < IMAGE_HEIGHT ==> rows[y] == SplashRow(image, y)
  {
    var lineBuffer := new bv16[IMAGE_WIDTH];
    rows := [];
    var y := 0;
    while y < IMAGE_HEIGHT
      invariant 0 <= y <= IMAGE_HEIGHT && |rows| == y
      invariant forall k :: 0 <= k < y ==> rows[k] == SplashRow(image, k)
    {
      FillLine(image, y, lineBuffer);
      rows := rows + [lineBuffer[..]];
      y := y + 1;
    }
  }

  /** The inner loop of `showSplashScreen()`: converts row `y` into every
      one of the 240 entries of `lineBuffer`. */
  method FillLine(image: seq<bv8>, y: int, lineBuffer: array<bv16>)
    requires |image| == IMAGE_BYTES && 0 <= y < IMAGE_HEIGHT && lineBuffer.Length == IMAGE_WIDTH
    modifies lineBuffer
    ensures lineBuffer[..] == SplashRow(image, y)
  {
    var x := 0;
    while x < IMAGE_WIDTH
      invariant 0 <= x <= IMAGE_WIDTH
      invariant forall k :: 0 <= k < x ==> lineBuffer[k] == SplashPixel(image, y, k)
    {
      PixelIndexInBounds(y, x);
      var idx := (y * IMAGE_WIDTH + x) * 3;
      var r := image[idx];
      var g := image[idx + 1];
      var b := image[idx + 2];
      lineBuffer[x] := Pack565(r, g, b);
      x := x + 1;
    }
  }

  // ---------------------------------------------------------------------
  // The redraw decision of `loop()`

  /** Whether `loop()` draws, and the `lastState` it keeps, given the state
      drawn last, the state after the buttons and the menu's redraw flag. */
  function RedrawStep(lastState: MenuState, currentState: MenuState, needsRedraw: bool): (MenuState, bool) {
    if currentState != lastState || needsRedraw then (currentState, true) else (lastState, false)
  }

  /** `loop()` draws exactly when the state changed or the flag is set, and
      afterwards remembers the current state either way. */
  lemma RedrawWhenChangedOrFlagged(lastState: MenuState, currentState: MenuState, needsRedraw: bool)
    ensures RedrawStep(lastState, currentState, needsRedraw).1 <==> currentState != lastState || needsRedraw
    ensures RedrawStep(lastState, currentState, needsRedraw).0 == currentState
  {
  }

  /** Without the flag, a second pass on the same state draws nothing. */
  lemma NoRedrawOnRepeat(lastState: MenuState, currentState: MenuState, needsRedraw: bool)
    ensures !RedrawStep(RedrawStep(lastState, currentState, needsRedraw).0, currentState, false).1
  {
  }

  // ---------------------------------------------------------------------
  // The sketch's global objects and `loop()`

  class Device {
    const radio: CC1101
    const menu: MenuSystem
    const operations: SubGhzOperations
    /** The function-static `lastState` of `loop()`. */
    var lastState: MenuState

    ghost predicate Valid()
      reads this, operations, menu, operations.rssiHistory, operations.spectrumData, operations.recordedTimings
    {
      && operations.menu == menu && operations.radio == radio
      && operations.Valid()
    }

    /** The three globals of the sketch, before `setup()`. */
    constructor ()
      ensures Valid() && lastState == MenuMain
      ensures menu.View() == InitialView() && operations.st.lastMode == ModeIdle
    {
      var r := new CC1101();
      var m := new MenuSystem();
      var o := new SubGhzOperations(r, m);
      radio, menu, operations := r, m, o;
      lastState := MenuMain;
    }

    /** The part of `setup()` that reaches the model: when the radio came up
        (`radioOk`, what its `begin` reported) it is tuned to the menu's
        frequency, then the controller's `begin()` runs. */
    method Setup(radioOk: bool)
      requires Valid()
      modifies radio`currentFrequency, operations`st, operations`scanSamples,
        operations.rssiHistory, operations.spectrumData
      ensures Valid()
      ensures radio.currentFrequency == if radioOk then menu.GetSelectedFrequency() else old(radio.currentFrequency)
      ensures operations.rssiHistory[..] == EmptyHistory()
      ensures forall k :: 0 <= k < SPECTRUM_POINTS ==> operations.spectrumData[k] == RSSI_FLOOR
      ensures operations.st == old(operations.st).(historyIndex := 0)
    {
      if radioOk {
        radio.SetFrequency(menu.GetSelectedFrequency());
      }
      operations.Begin();
    }

    /** One pass of `loop()`: the buttons, the redraw decision and the
        controller's update. The press flags are those the M5 library reports
        for this pass, and `needsRedraw` is what the menu answers. */
    method Loop(a: bool, b: bool, power: bool, needsRedraw: bool, t: Environment)
      returns (shouldDraw: bool, rx: Option<int>)
      requires Valid()
      modifies this`lastState, menu, operations`st, operations`scanSamples, operations`listenTrace, radio,
        operations.rssiHistory, operations.spectrumData, operations.recordedTimings
      ensures Valid()
      ensures var v := Buttons(old(menu.View()), a, b, power);
        && (lastState, shouldDraw) == RedrawStep(old(lastState), v.state, needsRedraw)
        && operations.st.lastMode == v.mode
        && menu.currentState == v.state
      ensures operations.UpdatedFrom(old(operations.st), old(operations.scanSamples), old(radio.emitted),
                                     old(operations.rssiHistory[..]), old(operations.spectrumData[..]),
                                     old(operations.recordedTimings[..]),
                                     Buttons(old(menu.View()), a, b, power), t.(buttonA := a), rx)
    {
      menu.HandleButtons(a, b, power);
      ghost var v := menu.View();
      assert operations.st == old(operations.st) && operations.scanSamples == old(operations.scanSamples);
      assert radio.emitted == old(radio.emitted);
      assert operations.rssiHistory[..] == old(operations.rssiHistory[..]);
      assert operations.spectrumData[..] == old(operations.spectrumData[..]);
      assert operations.recordedTimings[..] == old(operations.recordedTimings[..]);
      assert menu.GetMode() == v.mode && menu.GetSelectedFrequency() == SelectedFrequency(v);
      var currentState := menu.GetState();
      shouldDraw := false;
      if currentState != lastState || needsRedraw {
        shouldDraw := true;
        lastState := currentState;
      }
      rx := operations.Update(t.(buttonA := a));
    }
  }
}
