/**
 * The dual-extrusion calibration menus (UltiLCD2_menu_dual.cpp): the
 * dual_state toggles, the option lists of the calibration menus and how an
 * option number maps to an item when some items are hidden, the ruler-based
 * and Z offset edits, the build-plate adjustment and the extruder switch.
 */
module MenuDual {
  import opened Machine
  import opened MenuUtils
  import opened ConfigurationDual

  // dual_state bits; their definitions are not part of this model
  const DualEnabled: bv8 := 1
  const DualToolchange: bv8 := 2
  const DualWipe: bv8 := 4

  predicate IsDualBit(bit: bv8) {
    bit == DualEnabled || bit == DualToolchange || bit == DualWipe
  }

  /** dual_state after `dual_state ^= bit`. */
  function Toggled(state: bv8, bit: bv8): bv8 {
    state ^ bit
  }

  /** A toggle flips its own bit, keeps every other bit, and undoes itself. */
  lemma ToggleFlipsOwnBit(state: bv8, bit: bv8)
    requires IsDualBit(bit)
    ensures Toggled(state, bit) & bit != state & bit
    ensures Toggled(state, bit) & !bit == state & !bit
    ensures Toggled(Toggled(state, bit), bit) == state
  {
  }

  /** Two different toggles commute. */
  lemma TogglesCommute(state: bv8, a: bv8, b: bv8)
    requires IsDualBit(a) && IsDualBit(b)
    ensures Toggled(Toggled(state, a), b) == Toggled(Toggled(state, b), a)
  {
  }

  // ---------------------------------------------------------------------
  // Option lists. Each get_*_menuoption is an if-else chain over the items
  // in display order; an item guarded by a condition takes an option number
  // only when the condition holds (`cond && nr == index++`).

  /** One branch of a get_*_menuoption chain: the item and whether it is offered. */
  datatype Candidate = Candidate(shown: bool, item: MenuItem)

  /** The items offered, numbered from 0 in display order. */
  function Visible(cs: seq<Candidate>): (items: seq<MenuItem>)
    ensures |items| <= |cs|
  {
    if cs == [] then []
    else
      var last := cs[|cs| - 1];
      Visible(cs[..|cs| - 1]) + (if last.shown then [last.item] else [])
  }

  /** Offering one more candidate adds its item at the end, or nothing. */
  lemma VisibleStep(cs: seq<Candidate>, k: nat)
    requires k < |cs|
    ensures Visible(cs[..k + 1]) == Visible(cs[..k]) + (if cs[k].shown then [cs[k].item] else [])
  {
    assert cs[..k + 1][..k] == cs[..k];
  }

  /** The items offered by a first part of the chain come first, in the same order. */
  lemma {:induction false} VisiblePrefix(cs: seq<Candidate>, k: nat)
    requires k <= |cs|
    ensures Visible(cs[..k]) <= Visible(cs)
    decreases |cs| - k
  {
    if k < |cs| {
      VisiblePrefix(cs, k + 1);
      VisibleStep(cs, k);
    } else {
      assert cs[..k] == cs;
    }
  }

  /** What a short chain offers, candidate by candidate. */
  function Offered(c: Candidate): seq<MenuItem> {
    if c.shown then [c.item] else []
  }

  lemma VisibleUnrolled3(cs: seq<Candidate>)
    requires |cs| == 3
    ensures Visible(cs) == Offered(cs[0]) + Offered(cs[1]) + Offered(cs[2])
  {
    assert cs[..0] == [];
    VisibleStep(cs, 0);
    VisibleStep(cs, 1);
    VisibleStep(cs, 2);
    assert cs[..3] == cs;
  }

  lemma VisibleUnrolled4(cs: seq<Candidate>)
    requires |cs| == 4
    ensures Visible(cs) == Offered(cs[0]) + Offered(cs[1]) + Offered(cs[2]) + Offered(cs[3])
  {
    VisibleUnrolled3(cs[..3]);
    VisibleStep(cs, 3);
    assert cs[..4] == cs;
  }

  lemma VisibleUnrolled5(cs: seq<Candidate>)
    requires |cs| == 5
    ensures Visible(cs) == Offered(cs[0]) + Offered(cs[1]) + Offered(cs[2]) + Offered(cs[3]) + Offered(cs[4])
  {
    VisibleUnrolled4(cs[..4]);
    VisibleStep(cs, 4);
    assert cs[..5] == cs;
  }

  lemma VisibleUnrolled7(cs: seq<Candidate>)
    requires |cs| == 7
    ensures Visible(cs) == Offered(cs[0]) + Offered(cs[1]) + Offered(cs[2]) + Offered(cs[3])
                           + Offered(cs[4]) + Offered(cs[5]) + Offered(cs[6])
  {
    VisibleUnrolled5(cs[..5]);
    VisibleStep(cs, 5);
    assert cs[..6][..5] == cs[..5];
    VisibleStep(cs, 6);
    assert cs[..7] == cs;
  }

  /** The item the callback fills into process_submenu's fresh menu_t for option nr. */
  function OptionFn(cs: seq<Candidate>): int -> MenuItem {
    var items := Visible(cs);
    (nr: int) => if 0 <= nr < |items| then items[nr] else DefaultItem
  }

  /** A chain of get_*_menuoption, counting the offered items with index++. */
  method SelectOption(candidates: seq<Candidate>, nr: UInt8, opt: MenuT)
    modifies opt
    ensures nr < |Visible(candidates)| ==> opt.Value() == Visible(candidates)[nr]
    ensures nr >= |Visible(candidates)| ==> opt.Value() == old(opt.Value())
  {
    var index := 0;
    var i := 0;
    while i < |candidates|
      invariant i <= |candidates|
      invariant index == |Visible(candidates[..i])| <= nr
      invariant opt.Value() == old(opt.Value())
    {
      var c := candidates[i];
      assert candidates[..i + 1][..i] == candidates[..i];
      if c.shown {
        if nr == index {
          assert Visible(candidates[..i + 1]) == Visible(candidates[..i]) + [c.item];
          VisiblePrefix(candidates, i + 1);
          opt.SetDataWithHandlers(c.item.flags, c.item.init, c.item.process, c.item.post,
                                  c.item.maxEncoderAcceleration, c.item.encoderPos);
          return;
        }
        index := index + 1;
      }
      i := i + 1;
    }
    assert candidates[..i] == candidates;
  }

  /** Filling a fresh menu_t gives exactly what OptionFn describes. */
  method FreshOption(candidates: seq<Candidate>, nr: UInt8) returns (item: MenuItem)
    ensures item == OptionFn(candidates)(nr)
  {
    var opt := new MenuT();
    SelectOption(candidates, nr, opt);
    item := opt.Value();
  }

  function NormalItem(func: string): MenuItem {
    MenuItem(NoFunc, NoFunc, Func(func), EncoderNoSelection, 0, MenuNormal)
  }

  function EditItem(func: string, accel: UInt8): MenuItem {
    MenuItem(NoFunc, NoFunc, Func(func), EncoderNoSelection, accel, MenuInplaceEdit)
  }

  function Always(item: MenuItem): Candidate {
    Candidate(true, item)
  }

  /** The calibration lines are offered only while nothing prints, waits or moves. */
  predicate Idle(printingState: int, sdprinting: bool, commandsQueued: bool, movesPlanned: bool) {
    printingState == PrintStateNormal && !(sdprinting || commandsQueued || movesPlanned)
  }

  function ExtruderOffsetOptions(idle: bool): seq<Candidate> {
    [ Always(NormalItem("lcd_store_extruderoffset")),
      Always(NormalItem("lcd_return_extruderoffset")),
      Always(EditItem("lcd_extruderoffset_x", 8)),
      Candidate(idle, EditItem("lcd_extruderruler_x", 8)),
      Always(EditItem("lcd_extruderoffset_y", 8)),
      Candidate(idle, EditItem("lcd_extruderruler_y", 8)),
      Always(EditItem("lcd_extruderoffset_z", 8)) ]
  }

  /** The len that lcd_menu_extruderoffset passes to process_submenu. */
  function ExtruderOffsetLen(printingState: int, sdprinting: bool, commandsQueued: bool, movesPlanned: bool): UInt8 {
    if sdprinting || commandsQueued || movesPlanned || printingState != PrintStateNormal then 5 else 7
  }

  /**
   * The extruder-offset menu's length is the number of options offered: 7
   * when idle; when busy the two ruler lines are left out and the Y and Z
   * offsets move down to options 3 and 4.
   */
  lemma ExtruderOffsetMenuMatches(printingState: int, sdprinting: bool, commandsQueued: bool, movesPlanned: bool)
    ensures var idle := Idle(printingState, sdprinting, commandsQueued, movesPlanned);
      |Visible(ExtruderOffsetOptions(idle))| == ExtruderOffsetLen(printingState, sdprinting, commandsQueued, movesPlanned) as int
    ensures |Visible(ExtruderOffsetOptions(true))| == 7
    ensures var all := Visible(ExtruderOffsetOptions(true));
      Visible(ExtruderOffsetOptions(false)) == all[..3] + [all[4], all[6]]
  {
    var a := ExtruderOffsetOptions(true);
    var b := ExtruderOffsetOptions(false);
    VisibleUnrolled7(a);
    VisibleUnrolled7(b);
  }

  function DockPositionOptions(active: Extruder): seq<Candidate> {
    [ Always(NormalItem("lcd_store_dockposition")),
      Candidate(active == 0, NormalItem("lcd_dockmove_prepare")),
      Always(NormalItem("lcd_change_to_previous_menu")),
      Always(EditItem("lcd_dockposition_x", 2)),
      Always(EditItem("lcd_dockposition_y", 2)) ]
  }

  /** The len that lcd_menu_dockposition passes to process_submenu. */
  function DockPositionLen(active: Extruder): UInt8 {
    if active != 0 then 4 else 5
  }

  /** The dock menu offers MOVE exactly for the first nozzle, and its length counts what is offered. */
  lemma DockPositionMenuMatches(active: Extruder)
    ensures |Visible(DockPositionOptions(active))| == DockPositionLen(active) as int
    ensures NormalItem("lcd_dockmove_prepare") in Visible(DockPositionOptions(active)) <==> active == 0
  {
    var a := DockPositionOptions(active);
    VisibleUnrolled5(a);
    if active == 0 {
      assert Visible(a) == [a[0].item, a[1].item, a[2].item, a[3].item, a[4].item];
      assert Visible(a)[1] == NormalItem("lcd_dockmove_prepare");
    } else {
      assert Visible(a) == [a[0].item, a[2].item, a[3].item, a[4].item];
      assert NormalItem("lcd_dockmove_prepare") != a[0].item;
      assert NormalItem("lcd_dockmove_prepare") != a[2].item;
    }
  }

  function DockMoveOptions(): seq<Candidate> {
    [ Always(NormalItem("lcd_store_dockmove")),
      Always(NormalItem("lcd_dockmove_quit")),
      Always(EditItem("lcd_dockmove_x", 2)),
      Always(EditItem("lcd_dockmove_y", 2)) ]
  }

  function WipePositionOptions(): seq<Candidate> {
    [ Always(NormalItem("lcd_store_wipeposition")),
      Always(NormalItem("lcd_change_to_previous_menu")),
      Always(EditItem("lcd_wipeposition_x", 2)),
      Always(EditItem("lcd_wipeposition_y", 2)) ]
  }

  function TcRetractOptions(): seq<Candidate> {
    [ Always(NormalItem("lcd_store_tcretract")),
      Always(NormalItem("lcd_change_to_previous_menu")),
      Always(EditItem("lcd_tune_tcretractlen", 2)),
      Always(EditItem("lcd_tune_tcretractfeed", 2)),
      Always(EditItem("lcd_tune_tcprime", 2)) ]
  }

  /** The Z item of the simple build-plate menu zeroes the encoder when the edit starts. */
  const BuildplateZItem: MenuItem :=
    MenuItem(Func("init_value_tuning"), NoFunc, Func("lcd_position_z_axis"), EncoderNoSelection, 3, MenuInplaceEdit)

  function SimpleBuildplateOptions(): seq<Candidate> {
    [ Always(NormalItem("lcd_simple_buildplate_store")),
      Always(NormalItem("lcd_simple_buildplate_cancel")),
      Always(BuildplateZItem) ]
  }

  function DualStateOptions(): seq<Candidate> {
    [ Always(NormalItem("lcd_store_dualstate")),
      Always(NormalItem("lcd_change_to_previous_menu")),
      Always(NormalItem("lcd_toggle_dual")),
      Always(NormalItem("lcd_toggle_toolchange")),
      Always(NormalItem("lcd_toggle_wipe")) ]
  }

  /** The len that lcd_menu_dualstate passes to process_submenu. */
  function DualStateLen(state: bv8): UInt8 {
    if state & DualEnabled != 0 then 5 else 3
  }

  /**
   * The menus of fixed length pass exactly the number of options they
   * offer; the dual-state menu reaches all five only when dual mode is
   * enabled, and otherwise only store, return and the dual toggle.
   */
  lemma FixedMenusMatch(state: bv8)
    ensures |Visible(DockMoveOptions())| == 4 && |Visible(WipePositionOptions())| == 4
    ensures |Visible(TcRetractOptions())| == 5 && |Visible(SimpleBuildplateOptions())| == 3
    ensures |Visible(DualStateOptions())| == 5
    ensures state & DualEnabled != 0 ==> DualStateLen(state) as int == |Visible(DualStateOptions())|
    ensures state & DualEnabled == 0 ==>
      (Visible(DualStateOptions())[..DualStateLen(state)] ==
        [NormalItem("lcd_store_dualstate"), NormalItem("lcd_change_to_previous_menu"), NormalItem("lcd_toggle_dual")])
  {
    VisibleUnrolled4(DockMoveOptions());
    VisibleUnrolled4(WipePositionOptions());
    VisibleUnrolled5(TcRetractOptions());
    VisibleUnrolled3(SimpleBuildplateOptions());
    VisibleUnrolled5(DualStateOptions());
  }

  /** lcd_simple_buildplate_init: set_active on option 2 starts the Z edit and zeroes the encoder. */
  lemma SimpleBuildplateInitStartsEdit(m: MenuState)
    ensures var r := Activate(m, OptionFn(SimpleBuildplateOptions()), 2);
      && r.selected == 2 && r.active == BuildplateZItem && r.active.process.Func?
      && r.encoderPos == 0 && r.calls == m.calls + ["init_value_tuning"]
  {
    var s := SimpleBuildplateOptions();
    VisibleUnrolled3(s);
    ActivateEffect(m, OptionFn(s), 2);
  }

  // ---------------------------------------------------------------------
  // Offsets and build-plate adjustment

  /** Conversion of an integer to uint8_t. */
  function ToUInt8(x: int): (r: UInt8)
    ensures 0 <= x < 256 ==> r == x
  {
    x % 256
  }

  /** Storing an int8_t in a uint8_t cell and reading it back as int8_t gives the value back. */
  lemma CellRoundTrip(x: Int8)
    ensures ToInt8(ToUInt8(x)) == x
  {
  }

  /** The ruler line numbers, read from their cells as int8_t, lie in [-20, 20]. */
  predicate RulerInRange(cell: UInt8) {
    -20 <= ToInt8(cell) <= 20
  }

  /** lcd_calc_extruderoffset: each ruler line moves the second nozzle's offset by 0.04 mm. */
  function RulerCorrected(o: Offsets, rulerX: UInt8, rulerY: UInt8): (r: Offsets)
    ensures r.x0 == o.x0 && r.y0 == o.y0
  {
    o.(x1 := o.x1 - ToInt8(rulerX) as real * 0.04, y1 := o.y1 - ToInt8(rulerY) as real * 0.04)
  }

  /** Rulers at 0 change nothing; rulers in range move each offset by at most 0.8 mm, against the ruler's sign. */
  lemma RulerCorrectionBounded(o: Offsets, rulerX: UInt8, rulerY: UInt8)
    ensures rulerX == 0 && rulerY == 0 ==> RulerCorrected(o, rulerX, rulerY) == o
    ensures RulerInRange(rulerX) ==>
      o.x1 - 0.8 <= RulerCorrected(o, rulerX, rulerY).x1 <= o.x1 + 0.8
    ensures RulerInRange(rulerY) ==>
      o.y1 - 0.8 <= RulerCorrected(o, rulerX, rulerY).y1 <= o.y1 + 0.8
    ensures ToInt8(rulerX) > 0 ==> RulerCorrected(o, rulerX, rulerY).x1 < o.x1
    ensures ToInt8(rulerY) > 0 ==> RulerCorrected(o, rulerX, rulerY).y1 < o.y1
  {
  }

  /** The Z home offset that applies to nozzle e: add_homeing[Z] for the first, add_homeing_z2 for the second. */
  function HomeOffsetZ(addHomeingZ: real, addHomeingZ2: real, e: Extruder): real {
    if e == 0 then addHomeingZ else addHomeingZ2
  }

  /** The command lcd_prepare_buildplate_adjust builds with strcpy_P and strcat_P. */
  function HomingCommand(knownX: bool, knownY: bool): string {
    "G28" + (if knownX then "" else " X0") + (if knownY then "" else " Y0") + " Z0"
  }

  /**
   * The homing command starts with G28 and ends with " Z0"; it names X
   * exactly when X is unknown and Y exactly when Y is unknown, and it fits
   * the 32-byte buffer.
   */
  lemma HomingCommandShape(knownX: bool, knownY: bool)
    ensures var cmd := HomingCommand(knownX, knownY);
      && |cmd| == 6 + (if knownX then 0 else 3) + (if knownY then 0 else 3) < 32
      && cmd[..3] == "G28" && cmd[|cmd| - 3..] == " Z0"
      && (cmd[3..6] == " X0" <==> !knownX)
      && (cmd[|cmd| - 6..|cmd| - 3] == " Y0" <==> !knownY)
  {
    var cmd := HomingCommand(knownX, knownY);
    if knownX && knownY {
      assert cmd == "G28 Z0";
      assert cmd[3..6][1] == 'Z' && cmd[0..3][1] == '2';
    } else if knownX {
      assert cmd == "G28 Y0 Z0";
      assert cmd[3..6][1] == 'Y';
    } else if knownY {
      assert cmd == "G28 X0 Z0";
      assert cmd[3..6][1] == 'X';
    } else {
      assert cmd == "G28 X0 Y0 Z0";
    }
  }

  /** The string building of lcd_prepare_buildplate_adjust. */
  method BuildHomingCommand(knownX: bool, knownY: bool) returns (buffer: string)
    ensures buffer == HomingCommand(knownX, knownY)
  {
    buffer := "G28";
    if !knownX {
      buffer := buffer + " X0";
    }
    if !knownY {
      buffer := buffer + " Y0";
    }
    buffer := buffer + " Z0";
  }

  /** init_head_position: the head is homed only when neither X nor Y is known. */
  function HeadHoming(knownX: bool, knownY: bool): (cmds: seq<Command>)
    ensures cmds == [] <==> knownX || knownY
  {
    if !(knownX || knownY) then [HomeHead] else []
  }

  /**
   * switch_extruder: nothing happens when the target is already active;
   * otherwise the head is homed if needed and changeExtruder, which is not
   * part of this model, makes the target the active extruder.
   */
  method SwitchExtruder(machine: Machine, newExtruder: Extruder, moveZ: bool)
    modifies machine
    ensures newExtruder == old(machine.activeExtruder) ==> unchanged(machine)
    ensures newExtruder != old(machine.activeExtruder) ==>
      && machine.activeExtruder == newExtruder
      && machine.log == old(machine.log) + HeadHoming(old(machine.knownX), old(machine.knownY))
                        + [ChangeExtruder(newExtruder, moveZ)]
      && machine.addHomeingZ == old(machine.addHomeingZ) && machine.currentZ == old(machine.currentZ)
      && machine.knownX == old(machine.knownX) && machine.knownY == old(machine.knownY)
      && machine.printingState == old(machine.printingState)
  {
    if newExtruder != machine.activeExtruder {
      if !(machine.knownX || machine.knownY) {
        machine.log := machine.log + [HomeHead];
      }
      machine.log := machine.log + [ChangeExtruder(newExtruder, moveZ)];
      machine.activeExtruder := newExtruder;
    }
  }

  /** The state of the dual menus: dual_state, menu_extruder and the two ruler cells of the LCD cache. */
  class DualMenu {
    var dualState: bv8
    /** menu_extruder: the nozzle the per-extruder menus work on */
    var menuExtruder: Extruder
    /** LCD_CACHE_ID(X_AXIS) and LCD_CACHE_ID(Y_AXIS), uint8_t cells holding int8_t ruler lines */
    var rulerX: UInt8
    var rulerY: UInt8

    constructor (dualState: bv8)
      ensures this.dualState == dualState && menuExtruder == 0 && rulerX == 0 && rulerY == 0
    {
      this.dualState := dualState;
      menuExtruder := 0;
      rulerX, rulerY := 0, 0;
    }

    predicate RulersInRange()
      reads this
    {
      RulerInRange(rulerX) && RulerInRange(rulerY)
    }

    /** lcd_toggle_dual */
    method ToggleDual()
      modifies this
      ensures dualState == Toggled(old(dualState), DualEnabled)
      ensures menuExtruder == old(menuExtruder) && rulerX == old(rulerX) && rulerY == old(rulerY)
    {
      dualState := dualState ^ DualEnabled;
    }

    /** lcd_toggle_toolchange */
    method ToggleToolchange()
      modifies this
      ensures dualState == Toggled(old(dualState), DualToolchange)
      ensures menuExtruder == old(menuExtruder) && rulerX == old(rulerX) && rulerY == old(rulerY)
    {
      dualState := dualState ^ DualToolchange;
    }

    /** lcd_toggle_wipe */
    method ToggleWipe()
      modifies this
      ensures dualState == Toggled(old(dualState), DualWipe)
      ensures menuExtruder == old(menuExtruder) && rulerX == old(rulerX) && rulerY == old(rulerY)
    {
      dualState := dualState ^ DualWipe;
    }

    /** lcd_init_extruderoffset: both rulers start at line 0. */
    method InitExtruderOffset()
      modifies this
      ensures rulerX == 0 && rulerY == 0 && RulersInRange()
      ensures dualState == old(dualState) && menuExtruder == old(menuExtruder)
    {
      rulerX, rulerY := 0, 0;
    }

    /** lcd_extruderruler_x: a turn moves the X ruler line, kept within [-20, 20]. */
    method RulerXEdit(menu: LCDMenu)
      modifies this, menu
      ensures old(menu.encoderPos) == 0 ==> rulerX == old(rulerX) && menu.State() == old(menu.State())
      ensures old(menu.encoderPos) != 0 ==> RulerInRange(rulerX) && menu.State() == old(menu.State()).(encoderPos := 0)
      ensures old(menu.encoderPos) != 0 && -20 <= ToInt8(old(rulerX)) + old(menu.encoderPos) <= 20 ==>
        ToInt8(rulerX) == ToInt8(old(rulerX)) + old(menu.encoderPos)
      ensures old(RulersInRange()) ==> RulersInRange()
      ensures rulerY == old(rulerY) && dualState == old(dualState) && menuExtruder == old(menuExtruder)
    {
      var index := ToInt8(rulerX);
      var changed, tuned := menu.TuneInt8(index, -20, 20);
      if changed {
        CellRoundTrip(tuned);
        rulerX := ToUInt8(tuned);
      }
    }

    /** lcd_extruderruler_y: a turn moves the Y ruler line, kept within [-20, 20]. */
    method RulerYEdit(menu: LCDMenu)
      modifies this, menu
      ensures old(menu.encoderPos) == 0 ==> rulerY == old(rulerY) && menu.State() == old(menu.State())
      ensures old(menu.encoderPos) != 0 ==> RulerInRange(rulerY) && menu.State() == old(menu.State()).(encoderPos := 0)
      ensures old(menu.encoderPos) != 0 && -20 <= ToInt8(old(rulerY)) + old(menu.encoderPos) <= 20 ==>
        ToInt8(rulerY) == ToInt8(old(rulerY)) + old(menu.encoderPos)
      ensures old(RulersInRange()) ==> RulersInRange()
      ensures rulerX == old(rulerX) && dualState == old(dualState) && menuExtruder == old(menuExtruder)
    {
      var index := ToInt8(rulerY);
      var changed, tuned := menu.TuneInt8(index, -20, 20);
      if changed {
        CellRoundTrip(tuned);
        rulerY := ToUInt8(tuned);
      }
    }

    /** lcd_calc_extruderoffset: the rulers correct the second nozzle's offset and return to 0. */
    method CalcExtruderOffset(settings: DualSettings)
      modifies this, settings
      ensures settings.offset == RulerCorrected(old(settings.offset), old(rulerX), old(rulerY))
      ensures rulerX == 0 && rulerY == 0 && RulersInRange()
      ensures settings.addHomeingZ2 == old(settings.addHomeingZ2)
      ensures settings.dock == old(settings.dock) && settings.wipe == old(settings.wipe)
      ensures dualState == old(dualState) && menuExtruder == old(menuExtruder)
    {
      settings.offset := settings.offset.(x1 := settings.offset.x1 - ToInt8(rulerX) as real * 0.04);
      settings.offset := settings.offset.(y1 := settings.offset.y1 - ToInt8(rulerY) as real * 0.04);
      rulerX, rulerY := 0, 0;
    }

    /**
     * lcd_select_nozzle, once the button is pressed on item `index`: the
     * first two items choose a nozzle, any other runs the abort callback.
     */
    method SelectNozzle(index: UInt8, onSelect: MenuFunc, onAbort: MenuFunc) returns (calls: seq<string>)
      modifies this
      ensures index < 2 ==> menuExtruder == index && calls == CallIf(onSelect)
      ensures index >= 2 ==> menuExtruder == old(menuExtruder) && calls == CallIf(onAbort)
      ensures dualState == old(dualState) && rulerX == old(rulerX) && rulerY == old(rulerY)
    {
      if index < 2 {
        menuExtruder := index;
        calls := CallIf(onSelect);
      } else {
        calls := CallIf(onAbort);
      }
    }

    /** lcd_switch_extruder: switch to the nozzle chosen in the menu and leave any special print state. */
    method LcdSwitchExtruder(machine: Machine)
      modifies machine
      ensures machine.addHomeingZ == old(machine.addHomeingZ) && machine.currentZ == old(machine.currentZ) && machine.knownX == old(machine.knownX) && machine.knownY == old(machine.knownY)
      ensures machine.activeExtruder == menuExtruder
      ensures machine.printingState == PrintStateNormal
      ensures menuExtruder == old(machine.activeExtruder) ==> machine.log == old(machine.log)
      ensures menuExtruder != old(machine.activeExtruder) ==>
        machine.log == old(machine.log) + HeadHoming(old(machine.knownX), old(machine.knownY))
                       + [ChangeExtruder(menuExtruder, false)]
    {
      SwitchExtruder(machine, menuExtruder, false);
      machine.printingState := PrintStateNormal;
    }
  }

  /** lcd_extruderoffset_x: the encoder tunes the second nozzle's X offset within +-99.99 mm. */
  method ExtruderOffsetXEdit(menu: LCDMenu, settings: DualSettings)
    modifies menu, settings
    ensures old(menu.encoderPos) == 0 ==> settings.offset == old(settings.offset)
    ensures old(menu.encoderPos) != 0 ==>
      settings.offset == old(settings.offset).(x1 := Tuned(old(settings.offset.x1), old(menu.encoderPos), -99.99, 99.99, 0.01))
      && -99.99 <= settings.offset.x1 <= 99.99
    ensures old(menu.encoderPos) == 0 ==> menu.State() == old(menu.State())
    ensures old(menu.encoderPos) != 0 ==> menu.State() == old(menu.State()).(encoderPos := 0)
    ensures settings.addHomeingZ2 == old(settings.addHomeingZ2)
    ensures settings.dock == old(settings.dock) && settings.wipe == old(settings.wipe)
  {
    var _, tuned := menu.TuneValue(settings.offset.x1, -99.99, 99.99, 0.01);
    settings.offset := settings.offset.(x1 := tuned);
  }

  /** lcd_extruderoffset_y: the encoder tunes the second nozzle's Y offset within +-99.99 mm. */
  method ExtruderOffsetYEdit(menu: LCDMenu, settings: DualSettings)
    modifies menu, settings
    ensures old(menu.encoderPos) == 0 ==> settings.offset == old(settings.offset)
    ensures old(menu.encoderPos) != 0 ==>
      settings.offset == old(settings.offset).(y1 := Tuned(old(settings.offset.y1), old(menu.encoderPos), -99.99, 99.99, 0.01))
      && -99.99 <= settings.offset.y1 <= 99.99
    ensures old(menu.encoderPos) == 0 ==> menu.State() == old(menu.State())
    ensures old(menu.encoderPos) != 0 ==> menu.State() == old(menu.State()).(encoderPos := 0)
    ensures settings.addHomeingZ2 == old(settings.addHomeingZ2)
    ensures settings.dock == old(settings.dock) && settings.wipe == old(settings.wipe)
  {
    var _, tuned := menu.TuneValue(settings.offset.y1, -99.99, 99.99, 0.01);
    settings.offset := settings.offset.(y1 := tuned);
  }

  /**
   * lcd_extruderoffset_z: the value edited is the Z distance between the
   * nozzles, add_homeing[Z] - add_homeing_z2; afterwards that distance is
   * exactly the tuned value, within +-10 mm.
   */
  method ZOffsetEdit(menu: LCDMenu, machine: Machine, settings: DualSettings)
    modifies menu, settings
    ensures old(menu.encoderPos) == 0 ==> settings.addHomeingZ2 == old(settings.addHomeingZ2)
    ensures old(menu.encoderPos) != 0 ==>
      var shown := machine.addHomeingZ - settings.addHomeingZ2;
      && shown == Tuned(machine.addHomeingZ - old(settings.addHomeingZ2), old(menu.encoderPos), -10.0, 10.0, 0.01)
      && -10.0 <= shown <= 10.0
    ensures old(menu.encoderPos) == 0 ==> menu.State() == old(menu.State())
    ensures old(menu.encoderPos) != 0 ==> menu.State() == old(menu.State()).(encoderPos := 0)
    ensures settings.offset == old(settings.offset)
    ensures settings.dock == old(settings.dock) && settings.wipe == old(settings.wipe)
  {
    var zoffset := machine.addHomeingZ - settings.addHomeingZ2;
    var changed, tuned := menu.TuneValue(zoffset, -10.0, 10.0, 0.01);
    if changed {
      settings.addHomeingZ2 := machine.addHomeingZ - tuned;
    }
  }

  /**
   * lcd_prepare_buildplate_adjust: reload the machine settings (whose Z home
   * offset is `storedAddHomeingZ`), clear the active nozzle's Z home offset,
   * home the unknown axes and Z, and move to the centre.
   */
  method PrepareBuildplateAdjust(machine: Machine, settings: DualSettings, storedAddHomeingZ: real)
    modifies machine, settings
    ensures var a := machine.activeExtruder;
      && a == old(machine.activeExtruder)
      && HomeOffsetZ(machine.addHomeingZ, settings.addHomeingZ2, a) == 0.0
      && HomeOffsetZ(machine.addHomeingZ, settings.addHomeingZ2, 1 - a) ==
           HomeOffsetZ(storedAddHomeingZ, old(settings.addHomeingZ2), 1 - a)
    ensures machine.log == old(machine.log) + [Routine("Config_RetrieveSettings"),
      Gcode(HomingCommand(old(machine.knownX), old(machine.knownY))), MoveToCenter, Gcode("M84 X0 Y0")]
    ensures settings.offset == old(settings.offset)
    ensures settings.dock == old(settings.dock) && settings.wipe == old(settings.wipe)
    ensures machine.knownX == old(machine.knownX) && machine.knownY == old(machine.knownY)
    ensures machine.currentZ == old(machine.currentZ) && machine.printingState == old(machine.printingState)
  {
    machine.log := machine.log + [Routine("Config_RetrieveSettings")];
    machine.addHomeingZ := storedAddHomeingZ;
    if machine.activeExtruder != 0 {
      settings.addHomeingZ2 := 0.0;
    } else {
      machine.addHomeingZ := 0.0;
    }
    var buffer := BuildHomingCommand(machine.knownX, machine.knownY);
    machine.log := machine.log + [Gcode(buffer), MoveToCenter, Gcode("M84 X0 Y0")];
  }

  /** The commands of lcd_simple_buildplate_quit: home Z, home the head, motors off. */
  const BuildplateQuit: seq<Command> := [HomeBed, HomeHead, Gcode("M84")]

  /**
   * lcd_simple_buildplate_store: the nozzle now touches the plate at the
   * current Z, so the active nozzle's Z home offset takes that height off
   * and the position becomes Z = 0; the other nozzle's offset is kept.
   * Then lcd_simple_buildplate_quit homes the bed and the head and turns
   * the motors off.
   */
  method SimpleBuildplateStore(machine: Machine, settings: DualSettings)
    modifies machine, settings
    ensures machine.printingState == old(machine.printingState)
    ensures var a := machine.activeExtruder;
      && a == old(machine.activeExtruder)
      && HomeOffsetZ(machine.addHomeingZ, settings.addHomeingZ2, a) ==
           HomeOffsetZ(old(machine.addHomeingZ), old(settings.addHomeingZ2), a) - old(machine.currentZ)
      && HomeOffsetZ(machine.addHomeingZ, settings.addHomeingZ2, 1 - a) ==
           HomeOffsetZ(old(machine.addHomeingZ), old(settings.addHomeingZ2), 1 - a)
    ensures machine.currentZ == 0.0
    ensures machine.log == old(machine.log) +
      [Routine(if old(machine.activeExtruder) != 0 then "Dual_StoreAddHomeingZ2" else "Config_StoreSettings")]
      + BuildplateQuit
    ensures settings.offset == old(settings.offset)
    ensures settings.dock == old(settings.dock) && settings.wipe == old(settings.wipe)
  {
    if machine.activeExtruder != 0 {
      settings.addHomeingZ2 := settings.addHomeingZ2 - machine.currentZ;
      machine.log := machine.log + [Routine("Dual_StoreAddHomeingZ2")];
    } else {
      machine.addHomeingZ := machine.addHomeingZ - machine.currentZ;
      machine.log := machine.log + [Routine("Config_StoreSettings")];
    }
    machine.currentZ := 0.0;
    machine.log := machine.log + BuildplateQuit;
  }
}
