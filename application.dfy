/** The front-panel logic of the meter (Core/Src/application.c): the HOLD and
  * AUTO indicators, the soft-key menus, range navigation (direct selection,
  * up, down, auto and the "alternate" function of each mode key), and the key
  * edge detection with auto-repeat of the main loop. Drawing is not modelled:
  * what is kept is the state the drawing code shows. */
module Application {
  import opened Common
  import opened Scales
  import Dmm
  import opened Kbd

  /** Polls a key must be held before it fires again. */
  const START_REPEAT: int := 5

  /** Number of menus; a menu number is 1-based, a menu index 0-based. */
  const MENU_COUNT: int := 6

  /** `curMenu == NULL`. */
  const NO_MENU: int := -1

  // ---------------------------------------------------------------------
  // SetHold / SetAuto

  /** The new value of a HOLD or AUTO flag for a `SetHold`/`SetAuto` mode:
    * 0 clears it, 1 sets it, anything else toggles it. */
  function Switched(mode: int, flag: bool): bool
  {
    match mode
    case 0 => false
    case 1 => true
    case _ => !flag
  }

  /** Modes 0 and 1 force the flag whatever it was, and repeating them
    * changes nothing; any other mode flips the flag, and twice restores it. */
  lemma SwitchedMeaning(mode: int, flag: bool)
    ensures mode == 0 ==> !Switched(mode, flag)
    ensures mode == 1 ==> Switched(mode, flag)
    ensures mode == 0 || mode == 1 ==>
      Switched(mode, flag) == Switched(mode, !flag) && Switched(mode, Switched(mode, flag)) == Switched(mode, flag)
    ensures mode != 0 && mode != 1 ==>
      Switched(mode, flag) != flag && Switched(mode, Switched(mode, flag)) == flag
  {
  }

  // ---------------------------------------------------------------------
  // findScale

  /** The first scale at or after `from` whose mode value is `mode` and whose
    * full-scale range is exactly `fsr`, or -1. */
  function ScaleWith(mode: int, fsr: real, from: int): (r: int)
    requires 0 <= from <= DMM_CNTSCALES
    ensures r == -1 || (from <= r < DMM_CNTSCALES && GetMode(r) == mode && GetRange(r) == fsr)
    decreases DMM_CNTSCALES - from
  {
    if from == DMM_CNTSCALES then -1
    else if GetMode(from) == mode && GetRange(from) == fsr then from
    else ScaleWith(mode, fsr, from + 1)
  }

  /** No scale before the one found matches, and none at all when the search
    * finds nothing. */
  lemma {:induction false} ScaleWithFirst(mode: int, fsr: real, from: int, k: int)
    requires 0 <= from <= k < DMM_CNTSCALES
    requires ScaleWith(mode, fsr, from) == -1 || k < ScaleWith(mode, fsr, from)
    ensures !(GetMode(k) == mode && GetRange(k) == fsr)
    decreases k - from
  {
    if from < k {
      ScaleWithFirst(mode, fsr, from + 1, k);
    }
  }

  /** `findScale`: a linear search of the scale table. The mode is a
    * `uint8_t`, so its `mode < 0` guard never fires. */
  method FindScale(mode: Byte, fsr: real) returns (r: int)
    ensures r == ScaleWith(mode, fsr, 0)
  {
    var idx := 0;
    while idx < DMM_CNTSCALES
      invariant 0 <= idx <= DMM_CNTSCALES
      invariant ScaleWith(mode, fsr, idx) == ScaleWith(mode, fsr, 0)
    {
      if GetMode(idx) == mode && GetRange(idx) == fsr {
        return idx;
      }
      idx := idx + 1;
    }
    return -1;
  }

  // ---------------------------------------------------------------------
  // The scale-resolution switch of SetScale

  /** The mode the AC/DC alternate of a mode switches to. */
  function Partner(m: Mode): Mode
  {
    match m
    case DCVoltage => ACVoltage
    case ACVoltage => DCVoltage
    case DCCurrent => ACCurrent
    case ACCurrent => DCCurrent
    case _ => m
  }

  predicate Coupled(m: Mode)
  {
    m == DCVoltage || m == ACVoltage || m == DCCurrent || m == ACCurrent
  }

  /** The scale `SCALE_ALT` asks for from scale `cur`: the resistance family
    * rotates, AC and DC swap at the same range (or -1 when the other side has
    * no such range), and every other mode, or no scale at all, leaves the
    * request as `SCALE_ALT`, which is not a scale. The continuity and diode
    * targets are written `SCALE_Continuity` and `SCALE_Diode` in
    * application.c, names no header declares; they are read as dmm.h's
    * `SCALE_CONT` and `SCALE_DIODE`. */
  function Alternate(cur: int): int
  {
    if !ValidIndex(cur) then SCALE_ALT
    else
      var m := Modes[cur];
      match m
      case Resistance => SCALE_4W_500_Ohm
      case Resistance4W => SCALE_CONT
      case Continuity => SCALE_DIODE
      case Diode => SCALE_500_Ohm
      case DCVoltage => ScaleWith(ModeCode(Partner(m)), Ranges[cur], 0)
      case ACVoltage => ScaleWith(ModeCode(Partner(m)), Ranges[cur], 0)
      case DCCurrent => ScaleWith(ModeCode(Partner(m)), Ranges[cur], 0)
      case ACCurrent => ScaleWith(ModeCode(Partner(m)), Ranges[cur], 0)
      case Capacitance => SCALE_ALT
      case Frequency => SCALE_ALT
      case Temperature => SCALE_ALT
  }

  /** The scale the switch of `SetScale` tries for a request from scale `cur`:
    * UP and DOWN step within the mode, ALT takes the alternate, and any other
    * request, `SCALE_AUTO` included, is taken as it is. */
  function Requested(request: int, cur: int): int
  {
    if request == SCALE_UP then (if GetMode(cur + 1) == GetMode(cur) then cur + 1 else cur)
    else if request == SCALE_DOWN then (if GetMode(cur - 1) == GetMode(cur) then cur - 1 else request)
    else if request == SCALE_ALT then Alternate(cur)
    else request
  }

  /** The `SetAuto` mode the switch applies: AUTO and ALT turn AUTO on, UP
    * and DOWN turn it off, a direct selection leaves it alone. */
  function AutoFor(request: int): Option<bool>
  {
    if request == SCALE_AUTO || request == SCALE_ALT then Some(true)
    else if request == SCALE_UP || request == SCALE_DOWN then Some(false)
    else None
  }

  /** The AUTO flag after the switch, from its value before. */
  function AutoAfter(request: int, autorange: bool): bool
  {
    match AutoFor(request)
    case None => autorange
    case Some(b) => b
  }

  /** UP from a scale goes to the next scale of the same mode, which has a
    * larger range; at the top of the mode it stays where it is. */
  lemma UpMovesWithinMode(cur: int)
    requires ValidIndex(cur)
    ensures var s := Requested(SCALE_UP, cur);
      ValidIndex(s) && Modes[s] == Modes[cur]
      && (s == cur <==> cur == LastScale(Modes[cur]))
      && (s != cur ==> s == cur + 1 && Ranges[cur] < Ranges[s])
  {
    var m := Modes[cur];
    ModeBlocks(cur, m);
    if ValidIndex(cur + 1) {
      ModeBlocks(cur + 1, m);
      ModeCodeRoundTrip(m);
      if Modes[cur + 1] == m {
        RangesIncrease(cur);
      }
    }
  }

  /** DOWN goes to the previous scale of the same mode, which has a smaller
    * range; at the bottom of the mode the request stays `SCALE_DOWN`, which
    * is then rejected as not being a scale. */
  lemma DownMovesWithinMode(cur: int)
    requires ValidIndex(cur)
    ensures var s := Requested(SCALE_DOWN, cur);
      (ValidIndex(s) <==> cur != FirstScale(Modes[cur]))
      && (ValidIndex(s) ==> s == cur - 1 && Modes[s] == Modes[cur] && Ranges[s] < Ranges[cur])
      && (!ValidIndex(s) ==> s == SCALE_DOWN)
  {
    var m := Modes[cur];
    ModeBlocks(cur, m);
    if ValidIndex(cur - 1) {
      ModeBlocks(cur - 1, m);
      ModeCodeRoundTrip(m);
      if Modes[cur - 1] == m {
        RangesIncrease(cur - 1);
      }
    }
  }

  /** The resistance family rotates 2-wire -> 4-wire 500 Ohm -> continuity
    * -> diode -> 2-wire 500 Ohm; capacitance, frequency and temperature
    * have no alternate. */
  lemma AlternateRotation(cur: int)
    requires ValidIndex(cur)
    ensures Modes[cur] == Resistance ==> Alternate(cur) == SCALE_4W_500_Ohm
    ensures Modes[cur] == Resistance4W ==> Alternate(cur) == SCALE_CONT
    ensures Modes[cur] == Continuity ==> Alternate(cur) == SCALE_DIODE
    ensures Modes[cur] == Diode ==> Alternate(cur) == SCALE_500_Ohm
    ensures Modes[cur] in {Capacitance, Frequency, Temperature} ==> !ValidIndex(Alternate(cur))
  {
  }

  /** Four presses of the alternate function from 2-wire 500 Ohm come back. */
  lemma AlternateCycle()
    ensures Alternate(SCALE_500_Ohm) == SCALE_4W_500_Ohm
    ensures Alternate(SCALE_4W_500_Ohm) == SCALE_CONT
    ensures Alternate(SCALE_CONT) == SCALE_DIODE
    ensures Alternate(SCALE_DIODE) == SCALE_500_Ohm
  {
  }

  /** For AC and DC voltage and current the alternate is a scale of the
    * partner mode with exactly the same range, or -1 exactly when the
    * partner mode has no such range. */
  lemma AlternateCoupling(cur: int)
    requires ValidIndex(cur) && Coupled(Modes[cur])
    ensures var a := Alternate(cur);
      (a == -1 || (ValidIndex(a) && Modes[a] == Partner(Modes[cur]) && Ranges[a] == Ranges[cur]))
      && (a == -1 <==> forall k :: 0 <= k < DMM_CNTSCALES ==> !(Modes[k] == Partner(Modes[cur]) && Ranges[k] == Ranges[cur]))
  {
    var m := Modes[cur];
    var p := Partner(m);
    var a := Alternate(cur);
    ModeCodeRoundTrip(p);
    if a != -1 {
      assert ModeOfCode(GetMode(a)) == Some(Modes[a]);
    } else {
      forall k | 0 <= k < DMM_CNTSCALES
        ensures !(Modes[k] == p && Ranges[k] == Ranges[cur])
      {
        ScaleWithFirst(ModeCode(p), Ranges[cur], 0, k);
        assert ModeOfCode(GetMode(k)) == Some(Modes[k]) && GetRange(k) == Ranges[k];
      }
    }
  }

  /** Switching AC/DC twice returns to the scale it started from: the
    * search back finds the original scale, since no two scales of one mode
    * share a range. */
  lemma AlternateRoundTrip(cur: int)
    requires ValidIndex(cur) && Coupled(Modes[cur]) && ValidIndex(Alternate(cur))
    ensures Alternate(Alternate(cur)) == cur
  {
    var m := Modes[cur];
    var a := Alternate(cur);
    AlternateCoupling(cur);
    assert Partner(Partner(m)) == m;
    var b := Alternate(a);
    ModeCodeRoundTrip(m);
    assert GetMode(cur) == ModeCode(m) && GetRange(cur) == Ranges[a];
    if b == -1 || cur < b {
      ScaleWithFirst(ModeCode(m), Ranges[a], 0, cur);
    }
    assert b != -1 && b <= cur;
    assert ModeOfCode(GetMode(b)) == Some(Modes[b]);
    if b < cur {
      RangesIncreaseWithinMode(b, cur);
    }
  }

  /** The 50 mV DC range has no AC counterpart: AC/DC from there is refused. */
  lemma NoAlternateFor50mV()
    ensures Alternate(SCALE_DC_50mV) == -1
  {
    AlternateCoupling(SCALE_DC_50mV);
    forall k | 0 <= k < DMM_CNTSCALES
      ensures !(Modes[k] == ACVoltage && Ranges[k] == Ranges[SCALE_DC_50mV])
    {
      if Modes[k] == ACVoltage {
        ModeBlocks(k, ACVoltage);
        ACVoltageFrom500mV(k);
      }
    }
  }

  /** The AC voltage ranges start at 500 mV. */
  lemma ACVoltageFrom500mV(k: int)
    requires SCALE_AC_500mV <= k <= SCALE_AC_750V
    ensures Ranges[k] >= 0.5
  {
  }

  // ---------------------------------------------------------------------
  // Menus

  /** The menu number `SetScale` loads for a mode; 0 reloads the current menu. */
  function MenuOf(m: Mode): int
  {
    match m
    case DCVoltage => 1
    case ACVoltage => 1
    case DCCurrent => 2
    case ACCurrent => 2
    case Resistance => 3
    case Resistance4W => 3
    case Continuity => 4
    case Diode => 5
    case Capacitance => 6
    case Frequency => 0
    case Temperature => 0
  }

  /** The `legend` of each menu, and the modes each serves. */
  const MENU_LEGENDS: seq<string> := ["Voltage", "Current", "Resistance", "Continuity", "Diode", "Capacitance"]

  predicate Serves(legend: string, m: Mode)
  {
    match m
    case DCVoltage => legend == "Voltage"
    case ACVoltage => legend == "Voltage"
    case DCCurrent => legend == "Current"
    case ACCurrent => legend == "Current"
    case Resistance => legend == "Resistance"
    case Resistance4W => legend == "Resistance"
    case Continuity => legend == "Continuity"
    case Diode => legend == "Diode"
    case Capacitance => legend == "Capacitance"
    case Frequency => false
    case Temperature => false
  }

  /** Every mode that has a menu gets the menu whose legend names it, and
    * the modes without one (frequency, temperature) get 0. */
  lemma MenuOfMeaning(m: Mode)
    ensures 0 <= MenuOf(m) <= MENU_COUNT
    ensures MenuOf(m) == 0 <==> m == Frequency || m == Temperature
    ensures MenuOf(m) != 0 ==> Serves(MENU_LEGENDS[MenuOf(m) - 1], m)
  {
  }

  /** The `state` (0 = not allowed) and `id` (own 1-based number) fields of
    * the six menus as the initialiser intends them. */
  const MENU_STATES: seq<int> := [1, 1, 1, 1, 1, 1]
  const MENU_IDS: seq<int> := [1, 2, 3, 4, 5, 6]

  /** The same fields as the initialiser of `Menu[]` fills them: it lists
    * the menu number where `state` is declared and 1 where `id` is. */
  const MENU_STATES_AS_WRITTEN: seq<int> := [1, 2, 3, 4, 5, 6]
  const MENU_IDS_AS_WRITTEN: seq<int> := [1, 1, 1, 1, 1, 1]

  predicate MenuTable(states: seq<int>, ids: seq<int>)
  {
    |states| == MENU_COUNT && |ids| == MENU_COUNT
    && forall k :: 0 <= k < MENU_COUNT ==> 1 <= ids[k] <= MENU_COUNT
  }

  /** The menu index `DoMenu(no)` makes current from menu index `cur`, or
    * None when it returns without changing anything: 0 reloads the current
    * menu through its `id`, 1..6 select a menu, any other number and a
    * menu whose `state` is 0 are ignored. */
  function MenuTarget(states: seq<int>, ids: seq<int>, cur: int, no: int): Option<int>
    requires MenuTable(states, ids)
    requires no == 0 ==> 0 <= cur < MENU_COUNT
  {
    var k := if no == 0 then ids[cur] - 1 else no - 1;
    if !(0 <= k < MENU_COUNT) then None
    else if states[k] == 0 then None
    else Some(k)
  }

  /** With the intended table, 0 reloads the current menu, 1..6 select that
    * menu, and everything else is ignored. */
  lemma MenuTargetMeaning(cur: int, no: int)
    requires no == 0 ==> 0 <= cur < MENU_COUNT
    ensures MenuTable(MENU_STATES, MENU_IDS)
    ensures no == 0 ==> MenuTarget(MENU_STATES, MENU_IDS, cur, no) == Some(cur)
    ensures 1 <= no <= MENU_COUNT ==> MenuTarget(MENU_STATES, MENU_IDS, cur, no) == Some(no - 1)
    ensures no != 0 && !(1 <= no <= MENU_COUNT) ==> MenuTarget(MENU_STATES, MENU_IDS, cur, no) == None
  {
  }

  /** As written, "reload the current menu" always loads the voltage menu,
    * whichever menu is current. */
  lemma AsWrittenReloadLoadsVoltage(cur: int)
    requires 0 <= cur < MENU_COUNT
    ensures MenuTable(MENU_STATES_AS_WRITTEN, MENU_IDS_AS_WRITTEN)
    ensures MenuTarget(MENU_STATES_AS_WRITTEN, MENU_IDS_AS_WRITTEN, cur, 0) == Some(0)
    ensures cur != 0 ==> MenuTarget(MENU_STATES_AS_WRITTEN, MENU_IDS_AS_WRITTEN, cur, 0) != Some(cur)
  {
  }

  // ---------------------------------------------------------------------
  // The state SetScale, MenuFunction and the key handler change

  /** The current scale (held by the measurement engine), the HOLD and AUTO
    * flags, the number of value lines shown (`dualmode`) and the current
    * menu index. */
  datatype Ui = Ui(scale: int, hold: bool, autorange: bool, dualmode: int, menu: int)

  /** The menu number `SetScale` passes to `DoMenu`: the new scale's menu
    * when the request is accepted, else 0. */
  function MenuRequest(u: Ui, request: int): int
  {
    var s := Requested(request, u.scale);
    if ValidIndex(s) then MenuOf(Modes[s]) else 0
  }

  /** `SetScale` ends in `DoMenu(menu)`, which dereferences `curMenu` when
    * `menu` is 0: there must be a current menu unless the request selects a
    * menu of its own. */
  predicate Settles(u: Ui, request: int)
  {
    0 <= u.menu < MENU_COUNT || MenuRequest(u, request) != 0
  }

  /** The state after `SetScale(request)`. */
  function AfterSetScale(u: Ui, request: int): (v: Ui)
    requires Settles(u, request)
    ensures 0 <= v.menu < MENU_COUNT
  {
    var s := Requested(request, u.scale);
    var ok := ValidIndex(s);
    var no := MenuRequest(u, request);
    MenuOfMeaning(if ok then Modes[s] else Frequency);
    var next := MenuTarget(MENU_STATES, MENU_IDS, u.menu, no);
    MenuTargetMeaning(u.menu, no);
    Ui(if ok then s else u.scale,
       false,
       AutoAfter(request, u.autorange),
       if ok then (if Modes[s] == Capacitance then 2 else 0) else u.dualmode,
       if next.Some? then next.value else u.menu)
  }

  /** A request that does not resolve to a scale changes neither the scale,
    * nor the value lines, nor the menu; it clears HOLD. An accepted one
    * moves to that scale, shows the menu of its mode (or keeps the menu for
    * frequency and temperature) and three value lines for capacitance. */
  lemma SetScaleOutcome(u: Ui, request: int)
    requires Settles(u, request)
    ensures var s, v := Requested(request, u.scale), AfterSetScale(u, request);
      !v.hold
      && (!ValidIndex(s) ==> v.scale == u.scale && v.dualmode == u.dualmode && v.menu == u.menu)
      && (ValidIndex(s) ==>
            v.scale == s && (v.dualmode == 2 <==> Modes[s] == Capacitance) && (v.dualmode == 0 <==> Modes[s] != Capacitance)
            && (MenuOf(Modes[s]) != 0 ==> Serves(MENU_LEGENDS[v.menu], Modes[s]))
            && (MenuOf(Modes[s]) == 0 ==> v.menu == u.menu))
  {
    var s := Requested(request, u.scale);
    MenuTargetMeaning(u.menu, MenuRequest(u, request));
    if ValidIndex(s) {
      MenuOfMeaning(Modes[s]);
    }
  }

  /** RANGE (`SCALE_AUTO`) turns AUTO on and never changes the scale. */
  lemma RangeKeySetsAuto(u: Ui)
    requires 0 <= u.menu < MENU_COUNT
    ensures AfterSetScale(u, SCALE_AUTO).autorange
    ensures AfterSetScale(u, SCALE_AUTO).scale == u.scale
    ensures AfterSetScale(u, SCALE_AUTO).menu == u.menu
  {
    MenuTargetMeaning(u.menu, 0);
  }

  /** UP and DOWN turn AUTO off and stay within the current mode. */
  lemma StepKeysClearAuto(u: Ui, request: int)
    requires request == SCALE_UP || request == SCALE_DOWN
    requires ValidIndex(u.scale) && Settles(u, request)
    ensures !AfterSetScale(u, request).autorange
    ensures Modes[AfterSetScale(u, request).scale] == Modes[u.scale]
  {
    if request == SCALE_UP {
      UpMovesWithinMode(u.scale);
    } else {
      DownMovesWithinMode(u.scale);
    }
  }

  /** `autorange` after `SetScale` as written: `DoMenu` ends with
    * `SetAuto(-1)`, which toggles the flag every time a menu is drawn. */
  function AutorangeAsWritten(u: Ui, request: int): bool
    requires Settles(u, request)
  {
    var s := Requested(request, u.scale);
    var a := AutoAfter(request, u.autorange);
    MenuOfMeaning(if ValidIndex(s) then Modes[s] else Frequency);
    if MenuTarget(MENU_STATES_AS_WRITTEN, MENU_IDS_AS_WRITTEN, u.menu, MenuRequest(u, request)).Some? then !a else a
  }

  /** As written, RANGE always leaves AUTO off, and UP and DOWN leave it on. */
  lemma AsWrittenRangeKeyClearsAuto(u: Ui)
    requires 0 <= u.menu < MENU_COUNT
    ensures !AutorangeAsWritten(u, SCALE_AUTO)
    ensures AutorangeAsWritten(u, SCALE_UP) && AutorangeAsWritten(u, SCALE_DOWN)
  {
    AsWrittenReloadLoadsVoltage(u.menu);
    MenuOfMeaning(Modes[SCALE_DC_50mV]);
  }

  // ---------------------------------------------------------------------
  // Soft keys and the key handler

  /** The callback value of button `b` of menu index `k`, when it has one:
    * the first button of the voltage, current and resistance menus calls
    * `SetScale(SCALE_ALT)`; no other button has a callback. */
  function Callback(k: int, b: int): Option<int>
  {
    if b == 0 && 0 <= k <= 2 then Some(SCALE_ALT) else None
  }

  /** `DoMenu(0)` on the intended table: the current menu stays current. */
  function Reload(u: Ui): (v: Ui)
    requires 0 <= u.menu < MENU_COUNT
    ensures v == u
  {
    var next := MenuTarget(MENU_STATES, MENU_IDS, u.menu, 0);
    MenuTargetMeaning(u.menu, 0);
    u.(menu := if next.Some? then next.value else u.menu)
  }

  /** The state after `MenuFunction(no)`: the button's callback, if any,
    * then a reload of the current menu. `no` is a `uint8_t`, so 0 wraps to
    * 255 and names no button. */
  function AfterMenuFunction(u: Ui, no: Byte): (v: Ui)
    requires 0 <= u.menu < MENU_COUNT
    ensures 0 <= v.menu < MENU_COUNT
  {
    var b := (no - 1) % 256;
    var cb := Callback(u.menu, b);
    Reload(if b < 5 && cb.Some? then AfterSetScale(u, cb.value) else u)
  }

  /** F1 is AC/DC (or 2W/4W) in the voltage, current and resistance menus;
    * every other soft key leaves the state as it is. */
  lemma MenuFunctionMeaning(u: Ui, no: Byte)
    requires 0 <= u.menu < MENU_COUNT
    ensures no == 1 && u.menu <= 2 ==> AfterMenuFunction(u, no) == AfterSetScale(u, SCALE_ALT)
    ensures !(no == 1 && u.menu <= 2) ==> AfterMenuFunction(u, no) == u
  {
    var b := (no - 1) % 256;
    assert b == 0 <==> no == 1;
  }

  /** What a key does, from the current mode value. */
  datatype Action = Select(scale: int) | Soft(no: Byte) | ToggleHold | Ignore

  function KeyAction(key: int, mode: int): Action
  {
    if key == KEY_VOLT then
      Select(if mode == ModeCode(DCVoltage) || mode == ModeCode(ACVoltage) then SCALE_ALT else SCALE_DC_1kV)
    else if key == KEY_AMP then
      Select(if mode == ModeCode(DCCurrent) || mode == ModeCode(ACCurrent) then SCALE_ALT else SCALE_DC_10A)
    else if key == KEY_OHM then
      Select(if mode == ModeCode(Resistance) || mode == ModeCode(Resistance4W)
                || mode == ModeCode(Diode) || mode == ModeCode(Continuity)
             then SCALE_ALT else SCALE_500_Ohm)
    else if key == KEY_CAP then Select(SCALE_50_nF)
    else if key == KEY_FREQ then Select(SCALE_FREQ)
    else if key == KEY_TEMP then Select(SCALE_TEMP)
    else if key == KEY_F1 then Soft(1)
    else if key == KEY_F2 then Soft(2)
    else if key == KEY_F3 then Soft(3)
    else if key == KEY_F4 then Soft(4)
    else if key == KEY_F5 then Soft(5)
    else if key == KEY_RUN then ToggleHold
    else if key == KEY_RANGE then Select(SCALE_AUTO)
    else if key == KEY_UP then Select(SCALE_UP)
    else if key == KEY_DOWN then Select(SCALE_DOWN)
    else Ignore
  }

  /** The state after a key that fires. */
  function AfterKey(u: Ui, key: int): (v: Ui)
    requires 0 <= u.menu < MENU_COUNT
    ensures 0 <= v.menu < MENU_COUNT
  {
    match KeyAction(key, GetMode(u.scale))
    case Select(s) => AfterSetScale(u, s)
    case Soft(n) => AfterMenuFunction(u, n)
    case ToggleHold => u.(hold := Switched(-1, u.hold))
    case Ignore => u
  }

  /** A key that selects a scale moves there when the scale is valid. */
  lemma KeySelects(u: Ui, key: int, s: int)
    requires 0 <= u.menu < MENU_COUNT
    requires KeyAction(key, GetMode(u.scale)) == Select(s) && ValidIndex(s)
    ensures AfterKey(u, key).scale == s
  {
    SetScaleOutcome(u, s);
  }

  /** The mode keys enter their mode at its default scale from any other
    * mode, and CAP, FREQ and TEMP always select their first scale. */
  lemma ModeKeysSelect(u: Ui, key: int)
    requires 0 <= u.menu < MENU_COUNT && ValidIndex(u.scale)
    ensures key == KEY_VOLT && !(Modes[u.scale] in {DCVoltage, ACVoltage}) ==> AfterKey(u, key).scale == SCALE_DC_1kV
    ensures key == KEY_AMP && !(Modes[u.scale] in {DCCurrent, ACCurrent}) ==> AfterKey(u, key).scale == SCALE_DC_10A
    ensures key == KEY_OHM && !(Modes[u.scale] in {Resistance, Resistance4W, Continuity, Diode}) ==> AfterKey(u, key).scale == SCALE_500_Ohm
    ensures key == KEY_CAP ==> AfterKey(u, key).scale == SCALE_50_nF
    ensures key == KEY_FREQ ==> AfterKey(u, key).scale == SCALE_FREQ
    ensures key == KEY_TEMP ==> AfterKey(u, key).scale == SCALE_TEMP
  {
    var m := Modes[u.scale];
    var code := GetMode(u.scale);
    assert ModeOfCode(code) == Some(m);
    if key == KEY_VOLT && !(m in {DCVoltage, ACVoltage}) {
      assert code != ModeCode(DCVoltage) && code != ModeCode(ACVoltage);
      KeySelects(u, key, SCALE_DC_1kV);
    } else if key == KEY_AMP && !(m in {DCCurrent, ACCurrent}) {
      assert code != ModeCode(DCCurrent) && code != ModeCode(ACCurrent);
      KeySelects(u, key, SCALE_DC_10A);
    } else if key == KEY_OHM && !(m in {Resistance, Resistance4W, Continuity, Diode}) {
      assert code != ModeCode(Resistance) && code != ModeCode(Resistance4W);
      assert code != ModeCode(Continuity) && code != ModeCode(Diode);
      KeySelects(u, key, SCALE_500_Ohm);
    } else if key == KEY_CAP {
      KeySelects(u, key, SCALE_50_nF);
    } else if key == KEY_FREQ {
      KeySelects(u, key, SCALE_FREQ);
    } else if key == KEY_TEMP {
      KeySelects(u, key, SCALE_TEMP);
    }
  }

  /** Pressing VOLT in a voltage scale that has a counterpart switches
    * AC/DC at the same range, and pressing it again comes back. */
  lemma VoltKeyTwice(u: Ui)
    requires 0 <= u.menu < MENU_COUNT && ValidIndex(u.scale)
    requires Modes[u.scale] == DCVoltage || Modes[u.scale] == ACVoltage
    requires ValidIndex(Alternate(u.scale))
    ensures Ranges[AfterKey(u, KEY_VOLT).scale] == Ranges[u.scale]
    ensures Modes[AfterKey(u, KEY_VOLT).scale] == Partner(Modes[u.scale])
    ensures AfterKey(AfterKey(u, KEY_VOLT), KEY_VOLT).scale == u.scale
  {
    var m := Modes[u.scale];
    var a := Alternate(u.scale);
    assert ModeOfCode(GetMode(u.scale)) == Some(m);
    AlternateCoupling(u.scale);
    AlternateRoundTrip(u.scale);
    var v := AfterKey(u, KEY_VOLT);
    assert v.scale == a;
    assert ModeOfCode(GetMode(a)) == Some(Modes[a]);
  }

  // ---------------------------------------------------------------------
  // Key edge detection and auto-repeat

  /** `last_key` and `repeat_timeout` of the main loop. */
  datatype Repeat = Repeat(lastKey: Byte, timeout: int)

  /** One pass of the loop's key logic: a held key counts up the timeout
    * (a `uint16_t`) unless HOLD is on, and on reaching `START_REPEAT` forgets
    * the last key; the key fires when it differs from the last key. */
  function Poll(r: Repeat, key: Byte, hold: bool): (Repeat, bool)
  {
    var r1 := Counted(r, key, hold);
    var fires := key != r1.lastKey;
    (Repeat(key, if fires then 0 else r1.timeout), fires)
  }

  /** The count step of `Poll`, before the key is compared with the last. */
  function Counted(r: Repeat, key: Byte, hold: bool): Repeat
  {
    if key == r.lastKey && key != KEY_NONE && !hold then
      var t := (r.timeout + 1) % 65536;
      if t == START_REPEAT then Repeat(0, t) else Repeat(r.lastKey, t)
    else r
  }

  /** A new key fires at once and restarts the count; a key that is still
    * the last one does not fire while HOLD is on or while it is 0. */
  lemma PollEdges(r: Repeat, key: Byte, hold: bool)
    ensures key != r.lastKey ==> Poll(r, key, hold) == (Repeat(key, 0), true)
    ensures key == r.lastKey && (hold || key == KEY_NONE) ==> Poll(r, key, hold) == (r, false)
  {
  }

  /** The count stays below `START_REPEAT`, so the 16-bit counter never wraps. */
  lemma PollTimeoutBound(r: Repeat, key: Byte, hold: bool)
    requires 0 <= r.timeout < START_REPEAT
    ensures 0 <= Poll(r, key, hold).0.timeout < START_REPEAT
  {
  }

  /** `n` polls with `key` held and HOLD off, from state `r`: the state after
    * the last one and whether the last one fired. */
  function Held(r: Repeat, key: Byte, n: nat): (Repeat, bool)
  {
    if n == 0 then (r, false)
    else Poll(Held(r, key, n - 1).0, key, false)
  }

  /** After a key has fired, holding it fires again on every `START_REPEAT`-th
    * poll and on no other. */
  lemma {:induction false} HeldKeyRepeats(key: Byte, n: nat)
    requires key != KEY_NONE && n >= 1
    ensures Held(Repeat(key, 0), key, n) == (Repeat(key, n % START_REPEAT), n % START_REPEAT == 0)
  {
    if n > 1 {
      HeldKeyRepeats(key, n - 1);
    }
  }

  // ---------------------------------------------------------------------
  // The application state

  /** The globals `hold`, `autorange`, `dualmode` and `curMenu` (an index,
    * or `NO_MENU` for NULL), the loop variables `last_key` and
    * `repeat_timeout`, and the measurement engine that holds the scale. */
  class App {
    var hold: bool
    var autorange: bool
    var dualmode: int
    var curMenu: int
    var lastKey: Byte
    var repeatTimeout: int
    const dmm: Dmm.Meter

    ghost predicate Valid()
      reads this, dmm
    {
      dmm.Valid() && NO_MENU <= curMenu < MENU_COUNT && 0 <= repeatTimeout < START_REPEAT
    }

    function View(): Ui
      reads this, dmm
    {
      Ui(dmm.idx, hold, autorange, dualmode, curMenu)
    }

    /** The initial values of the globals; `dmm` is the engine after `DMM_Init`. */
    constructor (dmm: Dmm.Meter)
      requires dmm.Valid()
      ensures Valid() && this.dmm == dmm
      ensures View() == Ui(dmm.idx, false, true, 1, NO_MENU) && lastKey == KEY_NONE && repeatTimeout == 0
    {
      hold := false;
      autorange := true;
      dualmode := 1;
      curMenu := NO_MENU;
      lastKey := KEY_NONE;
      repeatTimeout := 0;
      this.dmm := dmm;
    }

    /** `SetHold`; the indicator it draws is not modelled. */
    method SetHold(mode: int)
      modifies this`hold
      ensures hold == Switched(mode, old(hold))
    {
      if mode == 0 {
        hold := false;
      } else if mode == 1 {
        hold := true;
      } else {
        hold := !hold;
      }
    }

    /** `SetAuto`, with the intended effect only: see `AutorangeAsWritten`. */
    method SetAuto(mode: int)
      modifies this`autorange
      ensures autorange == Switched(mode, old(autorange))
    {
      if mode == 0 {
        autorange := false;
      } else if mode == 1 {
        autorange := true;
      } else {
        autorange := !autorange;
      }
    }

    /** `DoMenu`, on the intended menu table and without the trailing
      * `SetAuto(-1)`; drawing the buttons, header and footer is not
      * modelled. */
    method DoMenu(no: int)
      requires NO_MENU <= curMenu < MENU_COUNT
      requires no == 0 ==> 0 <= curMenu < MENU_COUNT
      modifies this`curMenu
      ensures NO_MENU <= curMenu < MENU_COUNT
      ensures MenuTable(MENU_STATES, MENU_IDS)
      ensures curMenu == match MenuTarget(MENU_STATES, MENU_IDS, old(curMenu), no)
                         case None => old(curMenu)
                         case Some(k) => k
    {
      MenuTargetMeaning(curMenu, no);
      var k;
      if no == 0 {
        k := MENU_IDS[curMenu] - 1;
      } else {
        k := no - 1;
        if !(0 <= k < MENU_COUNT) {
          return;
        }
      }
      if MENU_STATES[k] == 0 {
        return;
      }
      curMenu := k;
    }

    /** The switch at the top of `SetScale`: the scale to try, with the
      * `SetAuto` calls of its branches. */
    method ResolveRequest(request: int) returns (scale: int)
      requires Valid()
      modifies this`autorange
      ensures scale == Requested(request, dmm.idx)
      ensures autorange == AutoAfter(request, old(autorange))
    {
      scale := request;
      if request == SCALE_AUTO {
        SetAuto(1);
      } else if request == SCALE_UP {
        SetAuto(0);
        scale := StepUp();
      } else if request == SCALE_DOWN {
        SetAuto(0);
        scale := StepDown();
      } else if request == SCALE_ALT {
        SetAuto(1);
        var curMode := dmm.CurrentMode();
        var curScale := dmm.CurrentScale();
        var fsr := dmm.CurrentRange();
        scale := AlternateOf(curScale, curMode, fsr);
      }
    }

    /** The `SCALE_UP` branch: the next scale if it has the same mode. */
    method StepUp() returns (scale: int)
      requires Valid()
      ensures scale == Requested(SCALE_UP, dmm.idx)
    {
      var curMode := dmm.CurrentMode();
      var curScale := dmm.CurrentScale();
      assert curScale == dmm.idx && curMode == GetMode(curScale);
      if GetMode(curScale + 1) == curMode {
        scale := curScale + 1;
      } else {
        scale := curScale;
      }
    }

    /** The `SCALE_DOWN` branch: the previous scale if it has the same mode,
      * otherwise the request itself, which `CheckIdx` then refuses. */
    method StepDown() returns (scale: int)
      requires Valid()
      ensures scale == Requested(SCALE_DOWN, dmm.idx)
    {
      var curMode := dmm.CurrentMode();
      var curScale := dmm.CurrentScale();
      assert curScale == dmm.idx && curMode == GetMode(curScale);
      scale := SCALE_DOWN;
      if GetMode(curScale - 1) == curMode {
        scale := curScale - 1;
      }
    }

    /** The `SCALE_ALT` branch: a switch on the current mode value. */
    method AlternateOf(curScale: int, curMode: int, fsr: real) returns (scale: int)
      requires curMode == GetMode(curScale) && fsr == GetRange(curScale)
      ensures scale == Alternate(curScale)
    {
      scale := SCALE_ALT;
      if ValidIndex(curScale) {
        ModeCodeRoundTrip(Modes[curScale]);
      }
      if curMode == ModeCode(Resistance) {
        scale := SCALE_4W_500_Ohm;
      } else if curMode == ModeCode(Resistance4W) {
        scale := SCALE_CONT;
      } else if curMode == ModeCode(Continuity) {
        scale := SCALE_DIODE;
      } else if curMode == ModeCode(Diode) {
        scale := SCALE_500_Ohm;
      } else if curMode == ModeCode(DCVoltage) {
        scale := FindScale(ModeCode(ACVoltage), fsr);
      } else if curMode == ModeCode(ACVoltage) {
        scale := FindScale(ModeCode(DCVoltage), fsr);
      } else if curMode == ModeCode(DCCurrent) {
        scale := FindScale(ModeCode(ACCurrent), fsr);
      } else if curMode == ModeCode(ACCurrent) {
        scale := FindScale(ModeCode(DCCurrent), fsr);
      }
    }

    /** `SetScale`. The engine is told to change scale only for a valid
      * index that differs from the current one. */
    method SetScale(request: int)
      requires Valid() && Settles(View(), request)
      modifies this`hold, this`autorange, this`dualmode, this`curMenu, dmm`idx, dmm`tx, dmm`r37, dmm.sts
      ensures Valid() && View() == AfterSetScale(old(View()), request)
      ensures var s := Requested(request, old(dmm.idx));
        if ValidIndex(s) && s != old(dmm.idx) then dmm.sts[..] == Dmm.ScaleImage(s) && dmm.tx == old(dmm.tx) + 1
        else dmm.sts[..] == old(dmm.sts[..]) && dmm.tx == old(dmm.tx) && dmm.r37 == old(dmm.r37)
    {
      var menu := SwitchScale(request);
      DoMenu(menu);
    }

    /** The part of `SetScale` before the menu is drawn: HOLD off, the
      * request resolved, the scale set and the menu of its mode chosen (0,
      * the current menu, when the request fails). */
    method SwitchScale(request: int) returns (menu: int)
      requires Valid()
      modifies this`hold, this`autorange, this`dualmode, dmm`idx, dmm`tx, dmm`r37, dmm.sts
      ensures Valid() && curMenu == old(curMenu) && menu == MenuRequest(old(View()), request)
      ensures var s := Requested(request, old(dmm.idx));
        dmm.idx == (if ValidIndex(s) then s else old(dmm.idx)) && !hold
        && autorange == AutoAfter(request, old(autorange))
        && dualmode == (if ValidIndex(s) then (if Modes[s] == Capacitance then 2 else 0) else old(dualmode))
      ensures var s := Requested(request, old(dmm.idx));
        if ValidIndex(s) && s != old(dmm.idx) then dmm.sts[..] == Dmm.ScaleImage(s) && dmm.tx == old(dmm.tx) + 1
        else dmm.sts[..] == old(dmm.sts[..]) && dmm.tx == old(dmm.tx) && dmm.r37 == old(dmm.r37)
    {
      var curScale := dmm.CurrentScale();
      var err := SUCCESS;
      menu := 0;
      SetHold(0);
      var scale := ResolveRequest(request);
      if CheckIdx(scale) != SUCCESS {
        err := CMD_WRONGPARAMS;
      }
      if err == SUCCESS && scale != curScale {
        err := dmm.SetScale(scale);
      }
      if err == SUCCESS {
        if scale > -1 {
          var curMode := dmm.CurrentMode();
          ModeCodeRoundTrip(Capacitance);
          dualmode := if curMode == ModeCode(Capacitance) then 2 else 0;
          var unit := GetScaleUnit(scale);
          err := if unit.Ok? then SUCCESS else DMM_IDXCONFIG;
        }
      }
      if err == SUCCESS {
        menu := MenuOf(Modes[dmm.CurrentScale()]);
      }
    }

    /** `MenuFunction`: the soft key's callback, then a reload of the menu. */
    method MenuFunction(no: Byte)
      requires Valid() && 0 <= curMenu < MENU_COUNT
      modifies this`hold, this`autorange, this`dualmode, this`curMenu, dmm`idx, dmm`tx, dmm`r37, dmm.sts
      ensures Valid() && View() == AfterMenuFunction(old(View()), no)
    {
      var b := (no - 1) % 256;
      if b < 5 {
        var cb := Callback(curMenu, b);
        if cb.Some? {
          SetScale(cb.value);
        }
      }
      DoMenu(0);
    }

    /** The start of `Application` after `KBD_Init` and `DMM_Init`: DC 1 kV,
      * then AUTO on. */
    method Start()
      requires Valid() && curMenu == NO_MENU
      modifies this`hold, this`autorange, this`dualmode, this`curMenu, dmm`idx, dmm`tx, dmm`r37, dmm.sts
      ensures Valid()
      ensures View() == Ui(SCALE_DC_1kV, false, true, 0, 0)
    {
      assert MenuRequest(View(), SCALE_DC_1kV) == 1;
      SetScale(SCALE_DC_1kV);
      MenuTargetMeaning(NO_MENU, 1);
      SetAuto(1);
    }

    /** The key part of one pass of the main loop, with `key` the code
      * `KBD_Read` returned. */
    method PollKey(key: Byte)
      requires Valid() && 0 <= curMenu < MENU_COUNT
      modifies this`hold, this`autorange, this`dualmode, this`curMenu, this`lastKey, this`repeatTimeout
      modifies dmm`idx, dmm`tx, dmm`r37, dmm.sts
      ensures Valid() && 0 <= curMenu < MENU_COUNT
      ensures var (r, fires) := Poll(Repeat(old(lastKey), old(repeatTimeout)), key, old(hold));
        Repeat(lastKey, repeatTimeout) == r
        && View() == (if fires then AfterKey(old(View()), key) else old(View()))
    {
      ghost var u := View();
      PollTimeoutBound(Repeat(lastKey, repeatTimeout), key, hold);
      var fires := CountRepeat(key);
      if fires {
        repeatTimeout := 0;
        OnKey(key);
      }
      assert View() == (if fires then AfterKey(u, key) else u);
      lastKey := key;
    }

    /** The auto-repeat count of a held key, and whether the key fires. */
    method CountRepeat(key: Byte) returns (fires: bool)
      modifies this`lastKey, this`repeatTimeout
      ensures Repeat(lastKey, repeatTimeout) == Counted(old(Repeat(lastKey, repeatTimeout)), key, hold)
      ensures fires == (key != lastKey)
    {
      if key == lastKey && key != KEY_NONE && !hold {
        repeatTimeout := (repeatTimeout + 1) % 65536;
        if repeatTimeout == START_REPEAT {
          lastKey := 0;
        }
      }
      fires := key != lastKey;
    }

    /** The switch on a key that fires. */
    method OnKey(key: Byte)
      requires Valid() && 0 <= curMenu < MENU_COUNT
      modifies this`hold, this`autorange, this`dualmode, this`curMenu
      modifies dmm`idx, dmm`tx, dmm`r37, dmm.sts
      ensures Valid() && 0 <= curMenu < MENU_COUNT
      ensures View() == AfterKey(old(View()), key)
      ensures repeatTimeout == old(repeatTimeout)
    {
      var curMode := dmm.CurrentMode();
      match KeyAction(key, curMode)
      case Select(s) =>
        SetScale(s);
      case Soft(n) =>
        MenuFunction(n);
      case ToggleHold =>
        SetHold(-1);
      case Ignore =>
    }
  }
}
