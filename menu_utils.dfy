/**
 * The submenu machinery of the UltiLCD2 user interface
 * (UltiLCD2_menu_utils.cpp and .h): menu items (menu_t), the selection state
 * machine LCDMenu driven by the rotary encoder and its button, the in-place
 * value tuning of lcd_tune_value, and the text placement of drawMenuString.
 *
 * Menu callbacks are named; calling one is recorded in a log and its effects
 * are not part of this model.
 */
module MenuUtils {
  import opened Wrappers

  type Int8 = x: int | -128 <= x < 128
  type Int16 = x: int | -32768 <= x < 32768
  type UInt8 = x: int | 0 <= x < 256

  /** Conversion of an integer to int8_t (two's complement wrap-around). */
  function ToInt8(x: int): (r: Int8)
    ensures -128 <= x < 128 ==> r == x
  {
    (x + 128) % 256 - 128
  }

  /**
   * Integer division as C does it: the quotient is truncated toward zero, so
   * the remainder a - q * b has the sign of a and is smaller than b.
   */
  function CDiv(a: int, b: int): (q: int)
    requires b > 0
    ensures a >= 0 ==> 0 <= a - q * b < b
    ensures a < 0 ==> -b < a - q * b <= 0
  {
    if a >= 0 then a / b else -((-a) / b)
  }

  // menu item flags
  const MenuNormal: bv8 := 0
  const MenuInplaceEdit: bv8 := 1
  const MenuScrollItem: bv8 := 2
  const MenuSelected: bv8 := 4
  const MenuActive: bv8 := 8
  const MenuStatusline: bv8 := 16

  // text alignment
  const AlignTop: bv8 := 1
  const AlignBottom: bv8 := 2
  const AlignVCenter: bv8 := 4
  const AlignLeft: bv8 := 8
  const AlignRight: bv8 := 16
  const AlignHCenter: bv8 := 32
  const AlignCenter: bv8 := 36

  // text position constants
  const LcdLineHeight: nat := 9
  const LcdCharMarginLeft: nat := 4
  const LcdCharSpacing: nat := 6
  const LcdCharHeight: nat := 7
  const BottomMenuYPos: nat := 53

  // encoder constants of the UltiLCD2 library
  const EncoderTicksPerMainMenuItem: nat := 4
  const EncoderNoSelection: Int16 := -44

  /** selectedSubmenu when no item is selected. */
  const NoSelectedItem: Int8 := -1

  /** One turn through a menu of len items, in encoder ticks. */
  function Period(len: UInt8): int {
    len as int * EncoderTicksPerMainMenuItem
  }

  /** MAIN_MENU_ITEM_POS(n): the encoder position in the middle of item n. */
  function MainMenuItemPos(n: Int8): (pos: Int16)
    ensures n >= 0 ==> CDiv(pos, EncoderTicksPerMainMenuItem) == n
  {
    EncoderTicksPerMainMenuItem * n + EncoderTicksPerMainMenuItem / 2
  }

  /** MENU_SELECTED, MENU_ACTIVE and MENU_STATUSLINE are distinct single bits; ALIGN_CENTER combines the two centerings. */
  lemma FlagConstants()
    ensures MenuSelected & MenuActive == 0 && MenuSelected & MenuStatusline == 0 && MenuActive & MenuStatusline == 0
    ensures MenuSelected & (MenuSelected - 1) == 0 && MenuActive & (MenuActive - 1) == 0
    ensures MenuStatusline & (MenuStatusline - 1) == 0
    ensures AlignCenter == AlignVCenter | AlignHCenter
  {
  }

  /** A menu function pointer: null, or a named routine. */
  datatype MenuFunc = NoFunc | Func(name: string)

  /** The calls made through a pointer that may be null. */
  function CallIf(f: MenuFunc): seq<string> {
    if f.Func? then [f.name] else []
  }

  /** The value of a menu_t. */
  datatype MenuItem = MenuItem(
    init: MenuFunc,
    post: MenuFunc,
    process: MenuFunc,
    encoderPos: Int16,
    maxEncoderAcceleration: UInt8,
    flags: bv8)

  /** menu_t(): no functions, no encoder position, a normal item. */
  const DefaultItem: MenuItem := MenuItem(NoFunc, NoFunc, NoFunc, EncoderNoSelection, 0, MenuNormal)

  /** A menu_t, whose constructors and setData assign its fields. */
  class MenuT {
    var initMenuFunc: MenuFunc
    var postMenuFunc: MenuFunc
    var processMenuFunc: MenuFunc
    var encoderPos: Int16
    var maxEncoderAcceleration: UInt8
    var flags: bv8

    function Value(): MenuItem
      reads this
    {
      MenuItem(initMenuFunc, postMenuFunc, processMenuFunc, encoderPos, maxEncoderAcceleration, flags)
    }

    /** menu_t(func, pos, accel, fl): init and post are null. */
    constructor (func: MenuFunc := NoFunc, pos: Int16 := EncoderNoSelection, accel: UInt8 := 0, fl: bv8 := MenuNormal)
      ensures Value() == MenuItem(NoFunc, NoFunc, func, pos, accel, fl)
      ensures func == NoFunc && pos == EncoderNoSelection && accel == 0 && fl == MenuNormal ==> Value() == DefaultItem
    {
      initMenuFunc := NoFunc;
      postMenuFunc := NoFunc;
      processMenuFunc := func;
      encoderPos := pos;
      maxEncoderAcceleration := accel;
      flags := fl;
    }

    /** menu_t(initFunc, eventFunc, postFunc, pos, accel, fl) */
    constructor WithHandlers(initFunc: MenuFunc, eventFunc: MenuFunc, postFunc: MenuFunc,
                             pos: Int16 := EncoderNoSelection, accel: UInt8 := 0, fl: bv8 := MenuNormal)
      ensures Value() == MenuItem(initFunc, postFunc, eventFunc, pos, accel, fl)
    {
      initMenuFunc := initFunc;
      postMenuFunc := postFunc;
      processMenuFunc := eventFunc;
      encoderPos := pos;
      maxEncoderAcceleration := accel;
      flags := fl;
    }

    /** setData(fl, func, accel, pos): all six fields are overwritten, init and post cleared. */
    method SetData(fl: bv8, func: MenuFunc := NoFunc, accel: UInt8 := 0, pos: Int16 := EncoderNoSelection)
      modifies this
      ensures Value() == MenuItem(NoFunc, NoFunc, func, pos, accel, fl)
    {
      initMenuFunc := NoFunc;
      postMenuFunc := NoFunc;
      processMenuFunc := func;
      encoderPos := pos;
      maxEncoderAcceleration := accel;
      flags := fl;
    }

    /** setData(fl, initFunc, eventFunc, postFunc, accel, pos): all six fields are overwritten. */
    method SetDataWithHandlers(fl: bv8, initFunc: MenuFunc, eventFunc: MenuFunc, postFunc: MenuFunc,
                               accel: UInt8 := 0, pos: Int16 := EncoderNoSelection)
      modifies this
      ensures Value() == MenuItem(initFunc, postFunc, eventFunc, pos, accel, fl)
    {
      initMenuFunc := initFunc;
      postMenuFunc := postFunc;
      processMenuFunc := eventFunc;
      encoderPos := pos;
      maxEncoderAcceleration := accel;
      flags := fl;
    }
  }

  /**
   * The state LCDMenu works on: its fields activeSubmenu and selectedSubmenu,
   * the file statics lastEncoderPos and menuEncoderPos, the encoder position
   * and button flag of the LCD library, and the log of menu functions called.
   */
  datatype MenuState = MenuState(
    active: MenuItem,
    selected: Int8,
    lastEncoderPos: Int16,
    menuEncoderPos: Int16,
    encoderPos: Int16,
    buttonPressed: bool,
    calls: seq<string>)

  /** An in-place edit is running only while an item is selected. */
  predicate EditNeedsSelection(m: MenuState) {
    m.active.process.Func? ==> m.selected >= 0
  }

  /** reset_submenu */
  function Reset(m: MenuState): (r: MenuState)
    ensures r.calls == m.calls + CallIf(m.active.post)
    ensures r.encoderPos == r.lastEncoderPos == r.menuEncoderPos == m.menuEncoderPos
    ensures r.active == DefaultItem && r.selected == -1 && !r.buttonPressed
    ensures EditNeedsSelection(r)
  {
    MenuState(DefaultItem, -1, m.menuEncoderPos, m.menuEncoderPos, m.menuEncoderPos, false,
              m.calls + CallIf(m.active.post))
  }

  /**
   * The selection after a normal item was pressed: the source clears it when
   * `flags & MENU_NORMAL` is set, which never happens since MENU_NORMAL is 0.
   */
  function SelectionAfterPress(flags: bv8, selected: Int8): (r: Int8)
    ensures r == selected
  {
    if flags & MenuNormal != 0 then NoSelectedItem else selected
  }

  /** A press on item `index` while no edit is running. */
  function Press(m: MenuState, item: MenuItem, index: int): MenuState
    requires !m.buttonPressed
  {
    var m1 := m.(calls := m.calls + CallIf(item.init));
    if item.flags & MenuInplaceEdit != 0 then
      m1.(encoderPos := 0, selected := ToInt8(index), active := item)
    else
      var ran := if m1.selected == index then CallIf(item.process) else [];
      var m2 := m1.(calls := m1.calls + ran, active := DefaultItem);
      m2.(selected := SelectionAfterPress(item.flags, m2.selected))
  }

  /** The encoder position after process_submenu's adjustment by one period. */
  function Wrapped(pos: Int16, len: UInt8): Int16 {
    var pos' := if pos < 0 then pos + Period(len) else pos;
    if pos' >= Period(len) then pos' - Period(len) else pos'
  }

  /** The selection made for the (adjusted) encoder position. */
  function Select(m: MenuState, getMenuItem: int -> MenuItem, len: UInt8): MenuState {
    var index := CDiv(m.encoderPos, EncoderTicksPerMainMenuItem);
    if 0 <= index < len then
      var m1 := m.(menuEncoderPos := m.encoderPos);
      if m1.buttonPressed then Press(m1.(buttonPressed := false), getMenuItem(index), index)
      else m1.(selected := ToInt8(index))
    else
      m.(selected := NoSelectedItem)
  }

  /** The first part of process_submenu, run when the encoder moved or the button was pressed. */
  function Navigate(m: MenuState, getMenuItem: int -> MenuItem, len: UInt8): MenuState {
    var m1 := m.(lastEncoderPos := m.encoderPos);
    if m1.active.process.Func? || m1.encoderPos == EncoderNoSelection then m1
    else Select(m1.(encoderPos := Wrapped(m1.encoderPos, len)), getMenuItem, len)
  }

  /** One call of process_submenu; `timedOut` is the outcome of the inactivity timer test. */
  function Step(m: MenuState, getMenuItem: int -> MenuItem, len: UInt8, timedOut: bool): MenuState {
    var m1 :=
      if m.encoderPos != m.lastEncoderPos || m.buttonPressed then Navigate(m, getMenuItem, len)
      else if m.selected >= 0 && timedOut then Reset(m)
      else m;
    if m1.selected >= 0 && m1.active.process.Func? then
      if m1.buttonPressed then Reset(m1)
      else m1.(calls := m1.calls + [m1.active.process.name], lastEncoderPos := m1.encoderPos)
    else m1
  }

  /**
   * Turning the encoder with no edit running wraps its position by one period
   * of len items and selects the item under it, without calling anything.
   */
  lemma TurnSelects(m: MenuState, getMenuItem: int -> MenuItem, len: UInt8, timedOut: bool)
    requires 0 < len <= 128
    requires m.active.process.NoFunc? && !m.buttonPressed
    requires m.encoderPos != m.lastEncoderPos && m.encoderPos != EncoderNoSelection
    requires -Period(len) <= m.encoderPos < 2 * Period(len)
    ensures var r := Step(m, getMenuItem, len, timedOut);
      && r.encoderPos == m.encoderPos % Period(len)
      && r.selected == r.encoderPos / EncoderTicksPerMainMenuItem
      && 0 <= r.selected < len
      && r.menuEncoderPos == r.encoderPos && r.lastEncoderPos == m.encoderPos
      && r.calls == m.calls && r.active == m.active && !r.buttonPressed
  {
    var p := Period(len);
    var pos := m.encoderPos;
    var pos' := if pos < 0 then pos + p else if pos >= p then pos - p else pos;
    WrapIsMod(pos, p);
    assert 0 <= pos' < p;
    assert pos' / EncoderTicksPerMainMenuItem < len;
  }

  /** Wrapping by one period is the Euclidean remainder for positions within one period either side. */
  lemma WrapIsMod(pos: int, p: int)
    requires p > 0 && -p <= pos < 2 * p
    ensures (if pos < 0 then pos + p else if pos >= p then pos - p else pos) == pos % p
  {
    if pos < 0 {
      assert pos == (-1) * p + (pos + p);
    } else if pos >= p {
      assert pos == 1 * p + (pos - p);
    }
  }

  /** An encoder position beyond the items' range clears the selection. */
  lemma OutOfRangeDeselects(m: MenuState, getMenuItem: int -> MenuItem, len: UInt8, timedOut: bool)
    requires m.active.process.NoFunc?
    requires m.encoderPos != m.lastEncoderPos || m.buttonPressed
    requires m.encoderPos >= 2 * Period(len)
    ensures var r := Step(m, getMenuItem, len, timedOut);
      r.selected == -1 && r.calls == m.calls && r.buttonPressed == m.buttonPressed
  {
  }

  /**
   * An encoder position more than one period below 0 is still negative after
   * the single wrap: C's truncating division then selects item 0 when the
   * wrapped position lies within one item below 0, and clears the selection
   * further down.
   */
  lemma BelowRangeWrapsOnce(m: MenuState, getMenuItem: int -> MenuItem, len: UInt8, timedOut: bool)
    requires m.active.process.NoFunc? && m.encoderPos != EncoderNoSelection
    requires m.encoderPos != m.lastEncoderPos || m.buttonPressed
    requires m.encoderPos < -Period(len)
    ensures var r := Step(m, getMenuItem, len, timedOut);
      && (m.encoderPos + Period(len) <= -(EncoderTicksPerMainMenuItem as int) ==>
            r.selected == -1 && r.calls == m.calls && r.buttonPressed == m.buttonPressed
            && r.encoderPos == m.encoderPos + Period(len))
      && (m.encoderPos + Period(len) > -(EncoderTicksPerMainMenuItem as int) && 0 < len && !m.buttonPressed ==>
            r.selected == 0 && r.calls == m.calls && r.menuEncoderPos == r.encoderPos == m.encoderPos + Period(len))
  {
    var w := m.encoderPos + Period(len);
    assert Wrapped(m.encoderPos, len) == w;
    if w <= -(EncoderTicksPerMainMenuItem as int) {
      assert CDiv(w, EncoderTicksPerMainMenuItem) < 0;
    } else {
      assert CDiv(w, EncoderTicksPerMainMenuItem) == 0;
    }
  }

  /** The "no selection" encoder position is left alone. */
  lemma NoSelectionIgnored(m: MenuState, getMenuItem: int -> MenuItem, len: UInt8, timedOut: bool)
    requires m.active.process.NoFunc? && m.encoderPos == EncoderNoSelection
    requires m.encoderPos != m.lastEncoderPos || m.buttonPressed
    ensures Step(m, getMenuItem, len, timedOut) == m.(lastEncoderPos := m.encoderPos)
  {
  }

  /** The item under an encoder position within one period, and the position after wrapping. */
  function ItemUnder(pos: Int16, len: UInt8): int
    requires 0 < len
  {
    var period := Period(len);
    (if pos < 0 then pos + period else if pos >= period then pos - period else pos) / EncoderTicksPerMainMenuItem
  }

  /**
   * Pressing on an in-place-edit item: its init function runs, the encoder is
   * zeroed, the item becomes selected and active, and its process function
   * then runs once.
   */
  lemma PressStartsEdit(m: MenuState, getMenuItem: int -> MenuItem, len: UInt8, timedOut: bool)
    requires 0 < len <= 128
    requires m.active.process.NoFunc? && m.buttonPressed && m.encoderPos != EncoderNoSelection
    requires -Period(len) <= m.encoderPos < 2 * Period(len)
    requires getMenuItem(ItemUnder(m.encoderPos, len)).flags & MenuInplaceEdit != 0
    ensures var index := ItemUnder(m.encoderPos, len);
      var item := getMenuItem(index);
      var r := Step(m, getMenuItem, len, timedOut);
      && 0 <= index < len
      && r.selected == index && r.active == item && r.encoderPos == 0 && !r.buttonPressed
      && r.calls == m.calls + CallIf(item.init) + CallIf(item.process)
  {
  }

  /**
   * Pressing on a normal item: its init function runs, its process function
   * runs only if the item was already selected, no edit is left active, and
   * (MENU_NORMAL being 0) the selection is kept.
   */
  lemma PressRunsSelectedItem(m: MenuState, getMenuItem: int -> MenuItem, len: UInt8, timedOut: bool)
    requires 0 < len <= 128
    requires m.active.process.NoFunc? && m.buttonPressed && m.encoderPos != EncoderNoSelection
    requires -Period(len) <= m.encoderPos < 2 * Period(len)
    requires getMenuItem(ItemUnder(m.encoderPos, len)).flags & MenuInplaceEdit == 0
    ensures var index := ItemUnder(m.encoderPos, len);
      var item := getMenuItem(index);
      var r := Step(m, getMenuItem, len, timedOut);
      && 0 <= index < len
      && r.selected == m.selected && r.active == DefaultItem && !r.buttonPressed
      && r.calls == m.calls + CallIf(item.init) + (if m.selected == index then CallIf(item.process) else [])
  {
    var item := getMenuItem(ItemUnder(m.encoderPos, len));
    assert item.flags & MenuNormal == 0;
  }

  /** While an edit runs, a press ends it through reset_submenu. */
  lemma PressEndsEdit(m: MenuState, getMenuItem: int -> MenuItem, len: UInt8, timedOut: bool)
    requires m.active.process.Func? && m.selected >= 0 && m.buttonPressed
    ensures Step(m, getMenuItem, len, timedOut) == Reset(m.(lastEncoderPos := m.encoderPos))
  {
  }

  /** While an edit runs and the button is not pressed, its process function runs and the encoder position is taken over. */
  lemma EditRuns(m: MenuState, getMenuItem: int -> MenuItem, len: UInt8, timedOut: bool)
    requires m.active.process.Func? && m.selected >= 0 && !m.buttonPressed
    requires m.encoderPos != m.lastEncoderPos || !timedOut
    ensures var r := Step(m, getMenuItem, len, timedOut);
      r == m.(calls := m.calls + [m.active.process.name], lastEncoderPos := m.encoderPos)
  {
  }

  /** Without input, a selection times out through reset_submenu. */
  lemma SelectionTimesOut(m: MenuState, getMenuItem: int -> MenuItem, len: UInt8)
    requires m.encoderPos == m.lastEncoderPos && !m.buttonPressed && m.selected >= 0
    ensures Step(m, getMenuItem, len, true) == Reset(m)
  {
  }

  /** process_submenu keeps "an edit runs only with a selection" for menus of at most 128 items. */
  lemma StepKeepsEditNeedsSelection(m: MenuState, getMenuItem: int -> MenuItem, len: UInt8, timedOut: bool)
    requires len <= 128 && EditNeedsSelection(m)
    ensures EditNeedsSelection(Step(m, getMenuItem, len, timedOut))
  {
  }

  /** The encoder acceleration a menu state allows (encoder_acceleration_factor). */
  function Acceleration(m: MenuState): UInt8 {
    if m.active.process.Func? then m.active.maxEncoderAcceleration else 0
  }

  /**
   * The encoder is accelerated only while an in-place edit runs: after any
   * process_submenu step that leaves no item selected, and after
   * reset_submenu, the acceleration is 0; while an edit runs it is the edited
   * item's maximum.
   */
  lemma AccelerationOnlyWhileEditing(m: MenuState, getMenuItem: int -> MenuItem, len: UInt8, timedOut: bool)
    requires len <= 128 && EditNeedsSelection(m)
    ensures var r := Step(m, getMenuItem, len, timedOut);
      && (r.selected < 0 ==> Acceleration(r) == 0)
      && (r.selected >= 0 && r.active.process.Func? ==> Acceleration(r) == r.active.maxEncoderAcceleration)
    ensures Acceleration(Reset(m)) == 0
  {
    StepKeepsEditNeedsSelection(m, getMenuItem, len, timedOut);
  }

  /** set_selection */
  function SelectionSet(m: MenuState, index: Int8): (r: MenuState)
    ensures r.encoderPos == MainMenuItemPos(index) && r.lastEncoderPos != r.encoderPos
  {
    var pos := MainMenuItemPos(index);
    m.(encoderPos := pos, lastEncoderPos := pos - 1)
  }

  /** After set_selection(index), the next process_submenu selects that item without calling anything. */
  lemma SelectionSetThenStep(m: MenuState, index: Int8, getMenuItem: int -> MenuItem, len: UInt8, timedOut: bool)
    requires 0 <= index < len <= 128
    requires m.active.process.NoFunc? && !m.buttonPressed
    ensures var r := Step(SelectionSet(m, index), getMenuItem, len, timedOut);
      r.selected == index && r.calls == m.calls && r.active == m.active
  {
    var pos := MainMenuItemPos(index);
    assert pos / EncoderTicksPerMainMenuItem == index;
  }

  /** set_active */
  function Activate(m: MenuState, getMenuItem: int -> MenuItem, index: Int8): MenuState {
    var item := getMenuItem(index % 256);
    var m1 := m.(menuEncoderPos := MainMenuItemPos(index), lastEncoderPos := 0, encoderPos := 0,
                 calls := m.calls + CallIf(item.init));
    if item.flags & MenuInplaceEdit != 0 then
      m1.(selected := index, active := item)
    else
      var m2 := m1.(calls := m1.calls + CallIf(item.process), active := DefaultItem);
      m2.(selected := SelectionAfterPress(item.flags, m2.selected))
  }

  /**
   * set_active starts an in-place edit on the item directly, or runs a
   * normal item's function at once; either way the encoder restarts at 0 and
   * a later reset returns to the item's position.
   */
  lemma ActivateEffect(m: MenuState, getMenuItem: int -> MenuItem, index: Int8)
    requires index >= 0
    ensures var item := getMenuItem(index);
      var r := Activate(m, getMenuItem, index);
      && r.encoderPos == 0 && r.lastEncoderPos == 0 && r.menuEncoderPos == MainMenuItemPos(index)
      && (item.flags & MenuInplaceEdit != 0 ==>
            r.selected == index && r.active == item && r.calls == m.calls + CallIf(item.init))
      && (item.flags & MenuInplaceEdit == 0 ==>
            r.selected == m.selected && r.active == DefaultItem
            && r.calls == m.calls + CallIf(item.init) + CallIf(item.process))
      && EditNeedsSelection(r)
  {
    assert getMenuItem(index % 256) == getMenuItem(index);
    assert getMenuItem(index).flags & MenuNormal == 0;
  }

  /** The flags drawSubMenu hands to the draw function for item nr. */
  function DrawFlags(flags: bv8, active: MenuItem, selected: Int8, nr: UInt8): (r: bv8)
    ensures r & !(MenuActive | MenuSelected) == flags & !(MenuActive | MenuSelected)
    ensures r & MenuActive != 0 <==> selected == nr && active.process.Func?
    ensures r & MenuSelected != 0 <==> selected == nr && active.process.NoFunc?
  {
    var f := flags & !(MenuActive | MenuSelected);
    if active.process.Func? && selected == nr then f | MenuActive
    else if selected == nr then f | MenuSelected
    else f
  }

  /** At most one of MENU_ACTIVE and MENU_SELECTED is set, and only for the selected item. */
  lemma DrawFlagsExclusive(flags: bv8, active: MenuItem, selected: Int8, nr: UInt8)
    ensures var r := DrawFlags(flags, active, selected, nr);
      && !(r & MenuActive != 0 && r & MenuSelected != 0)
      && (r & (MenuActive | MenuSelected) != 0 ==> selected == nr)
      && r & MenuStatusline == flags & MenuStatusline
  {
    var r := DrawFlags(flags, active, selected, nr);
    assert r & MenuStatusline == (r & !(MenuActive | MenuSelected)) & MenuStatusline;
    assert flags & MenuStatusline == (flags & !(MenuActive | MenuSelected)) & MenuStatusline;
  }

  /** C's round(): halves away from zero. */
  function CRound(x: real): (r: int)
    ensures x - 0.5 <= r as real <= x + 0.5
    ensures x >= 0.0 ==> r >= 0
  {
    if x >= 0.0 then (x + 0.5).Floor else -((-x + 0.5).Floor)
  }

  /** Arduino's constrain(amt, low, high). */
  function Constrain(x: real, low: real, high: real): (r: real)
    ensures low <= high ==> low <= r <= high
    ensures low <= x <= high ==> r == x
  {
    if x < low then low else if x > high then high else x
  }

  /** The value lcd_tune_value(float) stores for an encoder delta. */
  function Tuned(value: real, encoderPos: int, min: real, max: real, step: real): (r: real)
    requires step > 0.0
  {
    Constrain(CRound((value + encoderPos as real * step) / step) as real * step, min, max)
  }

  /**
   * A tuned value lies in [min, max]; inside that range it is the multiple of
   * the step nearest to the value moved by encoderPos steps.
   */
  lemma TunedWithinBounds(value: real, encoderPos: int, min: real, max: real, step: real)
    requires step > 0.0 && min <= max
    ensures var r := Tuned(value, encoderPos, min, max, step);
      && min <= r <= max
      && (var k := CRound((value + encoderPos as real * step) / step);
          min <= k as real * step <= max ==>
            r == k as real * step && -step / 2.0 <= r - (value + encoderPos as real * step) <= step / 2.0)
  {
    var target := value + encoderPos as real * step;
    NearestMultiple(target, step);
  }

  /** Rounding target/step and scaling back lands within half a step of target. */
  lemma NearestMultiple(target: real, step: real)
    requires step > 0.0
    ensures -step / 2.0 <= CRound(target / step) as real * step - target <= step / 2.0
  {
    var q := target / step;
    var k := CRound(q) as real;
    var d := k - q;
    assert q * step == target;
    SubScaled(k, q, step);
    assert k * step - target == d * step;
    ScaleLe(-0.5, d, step);
    ScaleLe(d, 0.5, step);
    assert -step / 2.0 <= d * step <= step / 2.0;
    assert -step / 2.0 <= k * step - target <= step / 2.0;
  }

  lemma SubScaled(a: real, b: real, c: real)
    ensures a * c - b * c == (a - b) * c
  {
  }

  lemma ScaleLe(a: real, b: real, c: real)
    requires a <= b && c > 0.0
    ensures a * c <= b * c
  {
  }

  /** strchr(s, '|'): the position of the first bar. */
  function FindBar(s: string): (r: Option<nat>)
    ensures r.None? <==> '|' !in s
    ensures r.Some? ==> r.value < |s| && s[r.value] == '|' && '|' !in s[..r.value]
  {
    if s == [] then None
    else if s[0] == '|' then Some(0)
    else
      match FindBar(s[1..])
      case None => None
      case Some(i) =>
        assert s[1..][..i] == s[1..i + 1];
        Some(i + 1)
  }

  /** A string drawn at a position. */
  datatype Placed = Placed(x: UInt8, y: UInt8, text: string)

  /** The x position of a line of n characters in a box; uint8_t arithmetic. */
  function TextX(align: bv8, left: UInt8, width: UInt8, n: nat): (x: UInt8)
    ensures align & AlignLeft != 0 ==> x == left
    ensures align & AlignLeft == 0 && align & AlignRight != 0 && LcdCharSpacing * n <= left + width < 256 ==>
      x + LcdCharSpacing * n == left + width
    ensures align & (AlignLeft | AlignRight) == 0 && (LcdCharSpacing / 2) * n <= left + width / 2 < 256 ==>
      x + (LcdCharSpacing / 2) * n == left + width / 2
  {
    if align & AlignLeft != 0 then left
    else if align & AlignRight != 0 then (left + width - LcdCharSpacing * n) % 256
    else (left + width / 2 - (LcdCharSpacing / 2) * n) % 256
  }

  /** The y positions of the two lines of a split string; uint8_t arithmetic. */
  function TwoLineY(align: bv8, top: UInt8, height: UInt8): (ys: (UInt8, UInt8))
    ensures ys.1 == (ys.0 + LcdLineHeight) % 256
  {
    if align & AlignTop != 0 then (top, (top + LcdLineHeight) % 256)
    else if align & AlignBottom != 0 then
      var b := (top + height - LcdCharHeight) % 256;
      ((b - LcdLineHeight) % 256, b)
    else
      var c := (top + height / 2 - LcdLineHeight / 2 - LcdCharHeight / 2) % 256;
      (c, (c + LcdLineHeight) % 256)
  }

  /** drawMenuString's text placement: one line, or two lines split at the first '|'. */
  function LayoutText(left: UInt8, top: UInt8, width: UInt8, height: UInt8, s: string, align: bv8): (r: seq<Placed>)
    ensures FindBar(s).None? ==> |r| == 1 && r[0].text == s
    ensures FindBar(s).Some? ==>
      && |r| == 2 && r[0].text + "|" + r[1].text == s && '|' !in r[0].text
      && r[1].y == (r[0].y + LcdLineHeight) % 256
    ensures align & AlignTop != 0 ==> r[0].y == top
  {
    match FindBar(s)
    case Some(i) =>
      var first := s[..i];
      var second := s[i + 1..];
      assert first + "|" + second == s;
      var x1 := TextX(align, left, width, |first|);
      var x2 := TextX(align, left, width, |second|);
      var (y1, y2) := TwoLineY(align, top, height);
      [Placed(x1, y1, first), Placed(x2, y2, second)]
    case None =>
      var y: UInt8 :=
        if align & AlignTop != 0 then top
        else if align & AlignBottom != 0 then (top + height - LcdCharHeight) % 256
        else (top + height / 2 - LcdCharHeight / 2) % 256;
      [Placed(TextX(align, left, width, |s|), y, s)]
  }

  /** A single bottom-aligned line sits one character height above the box's bottom edge. */
  lemma BottomAlignedLine(left: UInt8, top: UInt8, width: UInt8, height: UInt8, s: string, align: bv8)
    requires '|' !in s && align & AlignTop == 0 && align & AlignBottom != 0
    requires LcdCharHeight <= top + height < 256
    ensures LayoutText(left, top, width, height, s, align)[0].y + LcdCharHeight == top + height
  {
  }

  /** The selection state machine: class LCDMenu with the statics and LCD library state it uses. */
  class LCDMenu {
    var activeSubmenu: MenuItem
    var selectedSubmenu: Int8
    var lastEncoderPos: Int16
    var menuEncoderPos: Int16
    /** lcd_lib_encoder_pos */
    var encoderPos: Int16
    /** lcd_lib_button_pressed */
    var buttonPressed: bool
    var calls: seq<string>

    function State(): MenuState
      reads this
    {
      MenuState(activeSubmenu, selectedSubmenu, lastEncoderPos, menuEncoderPos, encoderPos, buttonPressed, calls)
    }

    /** LCDMenu(): nothing selected, no item active. */
    constructor ()
      ensures State() == MenuState(DefaultItem, -1, 0, 0, 0, false, [])
      ensures !IsSubmenuSelected() && !IsSubmenuActive()
    {
      activeSubmenu := DefaultItem;
      selectedSubmenu := -1;
      lastEncoderPos, menuEncoderPos, encoderPos := 0, 0, 0;
      buttonPressed := false;
      calls := [];
    }

    predicate IsSubmenuSelected()
      reads this
    {
      selectedSubmenu >= 0
    }

    predicate IsSubmenuActive()
      reads this
    {
      selectedSubmenu >= 0 && activeSubmenu.process.Func?
    }

    predicate IsSelected(nr: UInt8)
      reads this
    {
      selectedSubmenu == nr
    }

    predicate IsActive(nr: UInt8)
      reads this
    {
      selectedSubmenu == nr && activeSubmenu.process.Func?
    }

    /** isActive(nr) implies isSelected(nr), and an active submenu is a selected one. */
    lemma ActiveImpliesSelected(nr: UInt8)
      ensures IsActive(nr) ==> IsSelected(nr) && IsSubmenuActive()
      ensures IsSubmenuActive() ==> IsSubmenuSelected()
    {
    }

    /**
     * encoder_acceleration_factor: the edited item's acceleration while an
     * in-place edit runs; with nothing selected (and the state machine's
     * invariant) the encoder is not accelerated.
     */
    function EncoderAccelerationFactor(): (r: UInt8)
      reads this
      ensures r == Acceleration(State())
      ensures IsSubmenuActive() ==> r == activeSubmenu.maxEncoderAcceleration
      ensures EditNeedsSelection(State()) && !IsSubmenuSelected() ==> r == 0
    {
      Acceleration(State())
    }

    /** reset_submenu */
    method ResetSubmenu()
      modifies this
      ensures State() == Reset(old(State()))
    {
      if activeSubmenu.post.Func? {
        calls := calls + [activeSubmenu.post.name];
      }
      lastEncoderPos := menuEncoderPos;
      encoderPos := menuEncoderPos;
      activeSubmenu := DefaultItem;
      selectedSubmenu := -1;
      buttonPressed := false;
    }

    /** process_submenu */
    method ProcessSubmenu(getMenuItem: int -> MenuItem, len: UInt8, timedOut: bool)
      modifies this
      ensures State() == Step(old(State()), getMenuItem, len, timedOut)
    {
      if encoderPos != lastEncoderPos || buttonPressed {
        NavigateSubmenu(getMenuItem, len);
      } else if IsSubmenuSelected() && timedOut {
        // timeout occurred
        ResetSubmenu();
      }
      // process active item
      if IsSubmenuSelected() && activeSubmenu.process.Func? {
        if buttonPressed {
          ResetSubmenu();
        } else {
          calls := calls + [activeSubmenu.process.name];
          lastEncoderPos := encoderPos;
        }
      }
    }

    /** The part of process_submenu that follows the encoder and the button. */
    method NavigateSubmenu(getMenuItem: int -> MenuItem, len: UInt8)
      modifies this
      ensures State() == Navigate(old(State()), getMenuItem, len)
    {
      lastEncoderPos := encoderPos;
      if activeSubmenu.process.Func? || encoderPos == EncoderNoSelection {
        return;
      }
      ghost var m1 := State();
      var period := Period(len);
      // adjust encoder position
      if encoderPos < 0 {
        encoderPos := encoderPos + period;
      }
      if encoderPos >= period {
        encoderPos := encoderPos - period;
      }
      // determine new selection
      var index := CDiv(encoderPos, EncoderTicksPerMainMenuItem);
      assert State() == m1.(encoderPos := Wrapped(m1.encoderPos, len));
      if 0 <= index < len {
        menuEncoderPos := encoderPos;
        if buttonPressed {
          buttonPressed := false;
          PressItem(getMenuItem(index), index);
        } else {
          selectedSubmenu := ToInt8(index);
        }
      } else {
        selectedSubmenu := -1;
      }
    }

    /** A press on item `index` of process_submenu. */
    method PressItem(item: MenuItem, index: int)
      requires !buttonPressed
      modifies this
      ensures State() == Press(old(State()), item, index)
    {
      if item.init.Func? {
        calls := calls + [item.init.name];
      }
      if item.flags & MenuInplaceEdit != 0 {
        // instant tuning
        encoderPos := 0;
        selectedSubmenu := ToInt8(index);
        activeSubmenu := item;
      } else {
        // standard menu item
        if selectedSubmenu == index && item.process.Func? {
          calls := calls + [item.process.name];
        }
        activeSubmenu := DefaultItem;
        selectedSubmenu := SelectionAfterPress(item.flags, selectedSubmenu);
      }
    }

    /** drawSubMenu(drawFunc, nr, flags): the flags passed on, when there is a draw function. */
    method DrawSubMenu(hasDrawFunc: bool, nr: UInt8, flags: bv8) returns (newFlags: bv8)
      ensures hasDrawFunc ==> newFlags == DrawFlags(flags, activeSubmenu, selectedSubmenu, nr)
      ensures !hasDrawFunc ==> newFlags == flags
    {
      newFlags := flags;
      if hasDrawFunc {
        newFlags := newFlags & !(MenuActive | MenuSelected);
        if activeSubmenu.process.Func? && selectedSubmenu == nr {
          newFlags := newFlags | MenuActive;
        } else if selectedSubmenu == nr {
          newFlags := newFlags | MenuSelected;
        }
      }
    }

    /** set_selection */
    method SetSelection(index: Int8)
      modifies this
      ensures State() == SelectionSet(old(State()), index)
    {
      encoderPos := MainMenuItemPos(index);
      lastEncoderPos := encoderPos - 1;
    }

    /** set_active */
    method SetActive(getMenuItem: int -> MenuItem, index: Int8)
      modifies this
      ensures State() == Activate(old(State()), getMenuItem, index)
    {
      menuEncoderPos := MainMenuItemPos(index);
      lastEncoderPos, encoderPos := 0, 0;
      var item := getMenuItem(index % 256);
      if item.init.Func? {
        calls := calls + [item.init.name];
      }
      if item.flags & MenuInplaceEdit != 0 {
        encoderPos := 0;
        selectedSubmenu := index;
        activeSubmenu := item;
      } else {
        if item.process.Func? {
          calls := calls + [item.process.name];
        }
        activeSubmenu := DefaultItem;
        selectedSubmenu := SelectionAfterPress(item.flags, selectedSubmenu);
      }
    }

    /**
     * lcd_tune_value(int8_t&, min, max). Only its declaration is part of this
     * model; it is taken to move the value by the encoder delta, clamp it to
     * [min, max] and consume the delta, as the float version does.
     */
    method TuneInt8(value: Int8, min: Int8, max: Int8) returns (changed: bool, newValue: Int8)
      modifies this
      ensures changed == (old(encoderPos) != 0)
      ensures !changed ==> newValue == value && State() == old(State())
      ensures changed ==> State() == old(State()).(encoderPos := 0)
      ensures changed && min <= max ==> min <= newValue <= max
      ensures changed && min <= value + old(encoderPos) <= max ==> newValue == value + old(encoderPos)
    {
      if encoderPos != 0 {
        var target := value + encoderPos;
        newValue := if target < min then min else if target > max then max else target;
        encoderPos := 0;
        return true, newValue;
      }
      return false, value;
    }

    /** lcd_tune_value(float&, min, max, step): a moved encoder changes the value and is consumed. */
    method TuneValue(value: real, min: real, max: real, step: real) returns (changed: bool, newValue: real)
      requires step > 0.0
      modifies this
      ensures changed == (old(encoderPos) != 0)
      ensures !changed ==> newValue == value && State() == old(State())
      ensures changed ==> newValue == Tuned(value, old(encoderPos), min, max, step)
      ensures changed ==> State() == old(State()).(encoderPos := 0)
      ensures changed && min <= max ==> min <= newValue <= max
    {
      if encoderPos != 0 {
        newValue := Tuned(value, encoderPos, min, max, step);
        if min <= max {
          TunedWithinBounds(value, encoderPos, min, max, step);
        }
        encoderPos := 0;
        return true, newValue;
      }
      return false, value;
    }
  }
}
