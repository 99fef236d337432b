/** The menu: three buttons move between screens, pick the operation mode the
    controller runs, cycle the working frequency and toggle the module type.
    Drawing is not modelled; what is left is modular arithmetic on a few
    fields and enum assignments. */
module Menu {
  import opened Common
  import opened Radio

  datatype MenuState =
    | MenuMain | MenuScan | MenuSpectrum | MenuListen | MenuRecord | MenuReplay
    | MenuHacks | MenuGames | MenuWifiAp | MenuSettings | MenuAbout

  datatype OperationMode =
    ModeIdle | ModeScanning | ModeSpectrum | ModeListening | ModeRecording | ModeReplaying

  /** Entries of the main menu (`maxMenuItems`). */
  const MAX_MENU_ITEMS: int := 6

  /** The four selectable frequencies, in MHz. */
  const FREQUENCIES: seq<real> := [315.00, 433.92, 868.00, 915.00]

  /** Screen and mode that each main-menu entry leads to, in menu order:
      Scan, Spectrum, Listen, Record, Replay, Settings. */
  const MAIN_ENTRIES: seq<(MenuState, OperationMode)> := [
    (MenuScan, ModeScanning), (MenuSpectrum, ModeSpectrum), (MenuListen, ModeListening),
    (MenuRecord, ModeRecording), (MenuReplay, ModeReplaying), (MenuSettings, ModeIdle)]

  /** The fields the buttons rewrite. */
  datatype MenuView = MenuView(
    state: MenuState, mode: OperationMode, menuSelection: int,
    settingsSelection: int, freqIndex: int, moduleType: ModuleType)

  predicate Wellformed(v: MenuView) {
    && 0 <= v.menuSelection < MAX_MENU_ITEMS
    && 0 <= v.settingsSelection < 2
    && 0 <= v.freqIndex < |FREQUENCIES|
  }

  function InitialView(): MenuView {
    MenuView(MenuMain, ModeIdle, 0, 0, 1, Module2In1)
  }

  function SelectedFrequency(v: MenuView): real
    requires Wellformed(v)
  {
    FREQUENCIES[v.freqIndex]
  }

  function OtherModule(m: ModuleType): ModuleType {
    if m == Module2In1 then ModuleStandard else Module2In1
  }

  /** Button A: select / enter. */
  function PressA(v: MenuView): MenuView {
    if v.state == MenuMain then
      match v.menuSelection
      case 0 => v.(state := MenuScan, mode := ModeScanning)
      case 1 => v.(state := MenuSpectrum, mode := ModeSpectrum)
      case 2 => v.(state := MenuListen, mode := ModeListening)
      case 3 => v.(state := MenuRecord, mode := ModeRecording)
      case 4 => v.(state := MenuReplay, mode := ModeReplaying)
      case 5 => v.(state := MenuSettings, mode := ModeIdle, settingsSelection := 0)
      case _ => v
    else if v.state == MenuSettings then
      if v.settingsSelection == 0 then v.(moduleType := OtherModule(v.moduleType))
      else if v.settingsSelection == 1 then v.(state := MenuAbout)
      else v
    else v
  }

  /** Button B: back / cancel, or next entry on the main menu. */
  function PressB(v: MenuView): MenuView {
    if v.state == MenuAbout then v.(state := MenuSettings)
    else if v.state == MenuSettings then v.(state := MenuMain, mode := ModeIdle)
    else if v.state != MenuMain then v.(state := MenuMain, mode := ModeIdle)
    else v.(menuSelection := CMod(v.menuSelection + 1, MAX_MENU_ITEMS))
  }

  /** Power button: previous entry on the main menu, the other entry in
      Settings, nothing on About, and the next frequency on every other screen. */
  function PressPower(v: MenuView): MenuView {
    if v.state == MenuMain then
      v.(menuSelection := CMod(v.menuSelection - 1 + MAX_MENU_ITEMS, MAX_MENU_ITEMS))
    else if v.state == MenuSettings then
      v.(settingsSelection := CMod(v.settingsSelection + 1, 2))
    else if v.state != MenuAbout then
      v.(freqIndex := CMod(v.freqIndex + 1, 4))
    else v
  }

  /** `handleButtons`: A, then B, then Power, each only if it was pressed. */
  function Buttons(v: MenuView, a: bool, b: bool, power: bool): MenuView {
    var v1 := if a then PressA(v) else v;
    var v2 := if b then PressB(v1) else v1;
    if power then PressPower(v2) else v2
  }

  predicate OnModeScreen(s: MenuState) {
    s != MenuMain && s != MenuSettings && s != MenuAbout
  }

  // ---------------------------------------------------------------------
  // Properties of the transitions

  /** A fresh menu is on the main menu, idle, on the radio's power-on
      frequency of 433.92 MHz. */
  lemma InitialMenuFacts()
    ensures Wellformed(InitialView())
    ensures InitialView().state == MenuMain && InitialView().mode == ModeIdle
    ensures SelectedFrequency(InitialView()) == FREQ_433_MHZ
  {
  }

  /** No button takes a selection or the frequency index out of range. */
  lemma ButtonsKeepWellformed(v: MenuView, a: bool, b: bool, power: bool)
    requires Wellformed(v)
    ensures Wellformed(PressA(v)) && Wellformed(PressB(v)) && Wellformed(PressPower(v))
    ensures Wellformed(Buttons(v, a, b, power))
  {
  }

  /** On the main menu B moves to the next entry and Power to the previous
      one, cyclically over the six entries; each undoes the other and nothing
      else changes. */
  lemma MainMenuNavigation(v: MenuView)
    requires Wellformed(v) && v.state == MenuMain
    ensures PressB(v) == v.(menuSelection := (v.menuSelection + 1) % 6)
    ensures PressPower(v) == v.(menuSelection := (v.menuSelection + 5) % 6)
    ensures PressPower(PressB(v)) == v && PressB(PressPower(v)) == v
  {
  }

  /** On the main menu A enters the screen and mode of the selected entry;
      Settings also starts at its first entry. Selection, frequency and module
      type are kept. */
  lemma MainMenuSelect(v: MenuView)
    requires Wellformed(v) && v.state == MenuMain
    ensures (PressA(v).state, PressA(v).mode) == MAIN_ENTRIES[v.menuSelection]
    ensures v.menuSelection == 5 ==> PressA(v).settingsSelection == 0
    ensures v.menuSelection != 5 ==> PressA(v).settingsSelection == v.settingsSelection
    ensures PressA(v).menuSelection == v.menuSelection && PressA(v).freqIndex == v.freqIndex
    ensures PressA(v).moduleType == v.moduleType
  {
  }

  /** B from About goes back to Settings keeping the mode; from any other
      screen but the main menu it goes to the main menu, idle. */
  lemma BackNavigation(v: MenuView)
    requires v.state != MenuMain
    ensures v.state == MenuAbout ==> PressB(v) == v.(state := MenuSettings)
    ensures v.state != MenuAbout ==> PressB(v) == v.(state := MenuMain, mode := ModeIdle)
  {
  }

  /** On a mode screen Power cycles through the four frequencies: the index
      stays in range and four presses restore it. */
  lemma FrequencyCycle(v: MenuView)
    requires Wellformed(v) && OnModeScreen(v.state)
    ensures PressPower(v) == v.(freqIndex := (v.freqIndex + 1) % 4)
    ensures PressPower(PressPower(PressPower(PressPower(v)))) == v
  {
  }

  /** In Settings A on the first entry toggles the module type, so two
      presses are the identity; A on the second entry opens About; Power
      toggles between the two entries. */
  lemma SettingsScreen(v: MenuView)
    requires Wellformed(v) && v.state == MenuSettings
    ensures v.settingsSelection == 0 ==>
      PressA(v).moduleType != v.moduleType && PressA(PressA(v)) == v
    ensures v.settingsSelection == 1 ==> PressA(v) == v.(state := MenuAbout)
    ensures PressPower(v).settingsSelection == 1 - v.settingsSelection
    ensures PressPower(PressPower(v)) == v
  {
  }

  /** About ignores A and Power. */
  lemma AboutScreen(v: MenuView)
    requires v.state == MenuAbout
    ensures PressA(v) == v && PressPower(v) == v
  {
  }

  // ---------------------------------------------------------------------
  // The menu object

  class MenuSystem {
    var currentState: MenuState
    var currentMode: OperationMode
    var menuSelection: int
    var settingsSelection: int
    var freqIndex: int
    var moduleType: ModuleType

    function View(): MenuView
      reads this
    {
      MenuView(currentState, currentMode, menuSelection, settingsSelection, freqIndex, moduleType)
    }

    ghost predicate Valid()
      reads this
    {
      Wellformed(View())
    }

    constructor ()
      ensures Valid() && View() == InitialView()
    {
      currentState := MenuMain;
      currentMode := ModeIdle;
      menuSelection := 0;
      moduleType := Module2In1;
      settingsSelection := 0;
      freqIndex := 1;
    }

    function GetState(): MenuState
      reads this
    {
      currentState
    }

    function GetMode(): OperationMode
      reads this
    {
      currentMode
    }

    method SetMode(mode: OperationMode)
      modifies this`currentMode
      ensures GetMode() == mode
    {
      currentMode := mode;
    }

    function GetSelectedFreqIndex(): int
      reads this
    {
      freqIndex
    }

    function GetSelectedFrequency(): real
      reads this
      requires Valid()
    {
      FREQUENCIES[freqIndex]
    }

    function GetModuleType(): ModuleType
      reads this
    {
      moduleType
    }

    method ButtonA()
      requires Valid()
      modifies this
      ensures Valid() && View() == PressA(old(View()))
    {
      if currentState == MenuMain {
        match menuSelection
        case 0 =>
          currentState := MenuScan;
          currentMode := ModeScanning;
        case 1 =>
          currentState := MenuSpectrum;
          currentMode := ModeSpectrum;
        case 2 =>
          currentState := MenuListen;
          currentMode := ModeListening;
        case 3 =>
          currentState := MenuRecord;
          currentMode := ModeRecording;
        case 4 =>
          currentState := MenuReplay;
          currentMode := ModeReplaying;
        case 5 =>
          currentState := MenuSettings;
          currentMode := ModeIdle;
          settingsSelection := 0;
        case _ =>
      } else if currentState == MenuSettings {
        if settingsSelection == 0 {
          moduleType := if moduleType == Module2In1 then ModuleStandard else Module2In1;
        } else if settingsSelection == 1 {
          currentState := MenuAbout;
        }
      }
    }

    method ButtonB()
      requires Valid()
      modifies this
      ensures Valid() && View() == PressB(old(View()))
    {
      if currentState == MenuAbout {
        currentState := MenuSettings;
      } else if currentState == MenuSettings {
        currentState := MenuMain;
        currentMode := ModeIdle;
      } else if currentState != MenuMain {
        currentState := MenuMain;
        currentMode := ModeIdle;
      } else {
        menuSelection := CMod(menuSelection + 1, MAX_MENU_ITEMS);
      }
    }

    method ButtonPower()
      requires Valid()
      modifies this
      ensures Valid() && View() == PressPower(old(View()))
    {
      if currentState == MenuMain {
        menuSelection := CMod(menuSelection - 1 + MAX_MENU_ITEMS, MAX_MENU_ITEMS);
      } else if currentState == MenuSettings {
        settingsSelection := CMod(settingsSelection + 1, 2);
      } else if currentState != MenuAbout {
        freqIndex := CMod(freqIndex + 1, 4);
      }
    }

    /** `update()` / `handleButtons()`, with the three "was pressed" flags
        given. */
    method HandleButtons(a: bool, b: bool, power: bool)
      requires Valid()
      modifies this
      ensures Valid() && View() == Buttons(old(View()), a, b, power)
    {
      if a {
        ButtonA();
      }
      if b {
        ButtonB();
      }
      if power {
        ButtonPower();
      }
    }
  }
}
