# Dual-extrusion print and menu core of the UM2.1 Marlin firmware, in Dafny

This project models the part of the Ultimaker 2 dual-extrusion Marlin
firmware that manages printing from the SD card and the dual-nozzle
calibration menus. It proves properties of that model.

- **Toolchange scripts** (`command_buffer.dfy`, module `CommandBuffer`).
  The files `T0`, `T1` and `wipe` in the card's `config` directory are read
  into lists of command lines. Trailing blanks are trimmed, blank lines are
  dropped, and a file with no lines leaves the null pointer. A script is
  replayed in order and released. A list is a `seq<string>` inside an
  `Option`, where `None` is the null pointer. The card is a class that holds
  the results of each file's successive `fgets` calls.
- **Dual settings persistence** (`configuration_dual.dfy`, module
  `ConfigurationDual`). These settings are the second nozzle's Z home
  offset, the extruder offsets and the dock and wipe positions. They are
  stored in EEPROM behind a version word and a magic number. The EEPROM is a
  map from start address to the value written there; the writes are also
  kept in issue order. The proofs cover the store/retrieve round trip, the
  fallbacks for a missing magic number and for version-0 data, the byte
  layout, and what an interrupted store leaves.
- **Submenu state machine** (`menu_utils.dfy`, module `MenuUtils`).
  - `menu_t` is modelled as the class `MenuT` and the value `MenuItem`.
  - The class `LCDMenu` holds the selection state. Its methods are proved
    equal to pure functions (`Step`, `Navigate`, `Press`, `Reset`,
    `SelectionSet`, `Activate`), and lemmas state what those functions do.
  - The module also covers `lcd_tune_value`'s rounding and clamping, and the
    text placement of `drawMenuString`.
  - Menu callbacks are names; calling one appends its name to a log.
- **Dual calibration menus** (`menu_dual.dfy`, module `MenuDual`).
  - The `dual_state` toggles.
  - The option lists of the calibration menus, and how `index++` numbering
    maps an option number to an item when some items are hidden.
  - The ruler and offset edits, the Z offset edit, and the build-plate
    adjustment and store.
  - The extruder switch.
- **Print start, abort, pause and resume** (`menu_print.dfy`, module
  `MenuPrint`).
  - The state: the `primed` flags, and each extruder's print-retraction and
    toolchange-retraction records.
  - The priming loop of `doStartPrint` and the end-of-print retraction of
    `abortPrint`.
  - The lift and park of a pause, and the resume choice.
  - The G-code header lines read for the file details, and the trimming of
    file names for the file list and the print title.

Effects on the outside world are kept in the `Machine` class
(`machine.dfy`) as a log of `Command` values: motion, homing, calls to
`changeExtruder`, `processWipe`, and so on. The user's abort during a
priming wait comes from a sequence of booleans, one per wait.

## Model

| member | source | states |
|---|---|---|
| CommandBuffer.TrimTrailing | Marlin/commandbuffer.cpp:86 | the trimmed line is a prefix of the buffer, ends in a non-blank character (signed char above ' '), and everything removed was blank |
| CommandBuffer.TrimmedLength | Marlin/commandbuffer.cpp:86 | the trimming loop leaves exactly the length of TrimTrailing of the buffer |
| CommandBuffer.Kept | Marlin/commandbuffer.cpp:87-98 | at most one line per chunk read, and every kept line is a non-empty command line shorter than MAX_CMD_SIZE ending in a non-blank |
| CommandBuffer.ReadCount | Marlin/commandbuffer.cpp:78-82 | reading stops at the first empty read (fgets returning <= 0) or at the end of the file |
| CommandBuffer.ScriptOf | Marlin/commandbuffer.cpp:72-108 | the script built from an open file is null or a non-empty list of command lines |
| CommandBuffer.FileScript | Marlin/commandbuffer.cpp:72-74 | a file that cannot be opened gives the null script; any result is a well-formed script |
| CommandBuffer.KeptAppend | Marlin/commandbuffer.cpp:87-98 | appending at the tail keeps file order: reading a + b keeps the lines of a followed by the lines of b |
| CommandBuffer.BlankLineDropped | Marlin/commandbuffer.cpp:86-87 | a line that is blank after trimming adds nothing, wherever it stands |
| CommandBuffer.NonBlankLineAppended | Marlin/commandbuffer.cpp:87-98 | a non-blank line is appended, trimmed, right after the lines before it |
| CommandBuffer.KeptEmptyIff | Marlin/commandbuffer.cpp:102-107 | no line is kept if and only if every line read is blank after trimming |
| CommandBuffer.NullScriptIff | Marlin/commandbuffer.cpp:102-107 | an open file yields the null script if and only if every line read before the stop is blank |
| CommandBuffer.CommandBuffer.constructor | Marlin/commandbuffer.h:9 | a new buffer holds no scripts |
| CommandBuffer.CommandBuffer.HasScriptT0 | Marlin/commandbuffer.h:17 | true if and only if the T0 script has at least one line |
| CommandBuffer.CommandBuffer.HasScriptT1 | Marlin/commandbuffer.h:18 | true if and only if the T1 script has at least one line |
| CommandBuffer.CommandBuffer.Destroy | Marlin/commandbuffer.cpp:21-26 | all three lists are released |
| CommandBuffer.CommandBuffer.InitScripts | Marlin/commandbuffer.cpp:28-66 | earlier scripts are dropped. When the card cannot be mounted nothing is loaded and 0 is returned. Otherwise T0, T1 and wipe each hold the script of their file, the directory is back at the root, and the count (at most 3) is the number of scripts found |
| CommandBuffer.CommandBuffer.ReadScript | Marlin/commandbuffer.cpp:68-109 | the list read equals FileScript: the trimmed non-blank lines in file order, or null |
| CommandBuffer.CommandBuffer.ProcessScript | Marlin/commandbuffer.cpp:131-144 | every line is executed once in list order, and the uint8_t count is the number of lines mod 256 |
| ConfigurationDual.StoreWrites | Marlin/ConfigurationDual.cpp:53-64 | the store issues 11 writes: nine floats first, then the version word, and the magic number last |
| ConfigurationDual.Defaults | Marlin/ConfigurationDual.cpp:35-50 | defines the default settings; ResetDefault and MagicMismatchDefaults state where they apply |
| ConfigurationDual.Apply | Marlin/ConfigurationDual.cpp:55-64 | defines the EEPROM content after a sequence of writes; ApplyKeeps and ApplyLast characterise it |
| ConfigurationDual.Retrieved | Marlin/ConfigurationDual.cpp:70-97 | defines the settings a retrieve yields from an EEPROM content; StoreRetrieveRoundTrip, MagicMismatchDefaults, VersionZeroPartialDefaults and VersionOneReadsAll characterise it |
| ConfigurationDual.ApplyKeeps | Marlin/ConfigurationDual.cpp:55-64 | writes to other addresses leave an address's content unchanged |
| ConfigurationDual.ApplyLast | Marlin/ConfigurationDual.cpp:55-64 | an address holds the last value written to it |
| ConfigurationDual.StoreRetrieveRoundTrip | Marlin/ConfigurationDual.cpp:53-97 | retrieving after a store gives back exactly the stored settings, whatever the EEPROM held before |
| ConfigurationDual.MagicMismatchDefaults | Marlin/ConfigurationDual.cpp:92-95 | without the magic number every setting takes its default: add_homeing[Z], the configured offsets, dock (218, 41), wipe (90.5, 24) |
| ConfigurationDual.VersionZeroPartialDefaults | Marlin/ConfigurationDual.cpp:74-90 | version-0 data: the Z offset and the extruder offsets come from EEPROM, and dock and wipe take their defaults |
| ConfigurationDual.VersionOneReadsAll | Marlin/ConfigurationDual.cpp:74-83 | any version above 0 reads every setting from EEPROM |
| ConfigurationDual.StoreLayoutDisjoint | Marlin/ConfigurationDual.cpp:15-21 | all writes lie in [0x600, 0x62A) and their byte ranges are pairwise disjoint |
| ConfigurationDual.InterruptedStoreKeepsMagic | Marlin/ConfigurationDual.cpp:60-64 | a store cut short before its last write leaves the magic word unchanged, so invalid EEPROM still retrieves the defaults |
| ConfigurationDual.Eeprom.WriteCell | Marlin/ConfigurationDual.cpp:55-64 | one EEPROM write changes exactly that address and is logged |
| ConfigurationDual.DualSettings.constructor | Marlin/ConfigurationDual.cpp:29-32 | the globals start with Z2 offset 0, the default dock and the default wipe position |
| ConfigurationDual.DualSettings.ResetDefault | Marlin/ConfigurationDual.cpp:35-50 | every setting is assigned its default, independent of the old values |
| ConfigurationDual.DualSettings.StoreSettings | Marlin/ConfigurationDual.cpp:53-68 | the Z offset, the three blocks, the version and the magic number are written in that order: the EEPROM receives exactly the StoreWrites of the current settings |
| ConfigurationDual.DualSettings.WriteBlock | Marlin/ConfigurationDual.cpp:56-58 | eeprom_write_block of a float array issues BlockWrites after the writes already made, in array order, and the EEPROM holds their result |
| ConfigurationDual.BlockWrites | Marlin/ConfigurationDual.cpp:56-58 | a block of n floats is n writes, float i at four bytes per float past the block's address |
| ConfigurationDual.DualSettings.RetrieveSettings | Marlin/ConfigurationDual.cpp:70-97 | the settings become Retrieved(EEPROM content), and the EEPROM is not written |
| ConfigurationDual.DualSettings.StoreWithoutEeprom | Marlin/ConfigurationDual.h:32 | without EEPROM support a store changes nothing |
| ConfigurationDual.DualSettings.RetrieveWithoutEeprom | Marlin/ConfigurationDual.h:33 | without EEPROM support a retrieve resets to the defaults |
| MenuUtils.ToInt8 | Marlin/UltiLCD2_menu_utils.cpp:197 | conversion to int8_t keeps every value in [-128, 127] |
| MenuUtils.CDiv | Marlin/UltiLCD2_menu_utils.cpp:160 | C's division truncates toward zero: the remainder a - q * b has the sign of a and is smaller than b in size, so a position in (-4, 0) gives index 0 |
| MenuUtils.MainMenuItemPos | Marlin/UltiLCD2_menu_utils.cpp:253 | the position set for item n lies inside item n (dividing by the ticks per item gives n back) |
| MenuUtils.FlagConstants | Marlin/UltiLCD2_menu_utils.h:9-23 | MENU_SELECTED, MENU_ACTIVE and MENU_STATUSLINE are distinct single bits, and ALIGN_CENTER is VCENTER and HCENTER together |
| MenuUtils.MenuT.constructor | Marlin/UltiLCD2_menu_utils.h:61-67 | init and post are null and the other fields are taken from the arguments; the defaults give the empty item |
| MenuUtils.MenuT.WithHandlers | Marlin/UltiLCD2_menu_utils.h:69-75 | all six fields are taken from the arguments |
| MenuUtils.MenuT.SetData | Marlin/UltiLCD2_menu_utils.h:77-85 | every field is overwritten, and init and post are cleared |
| MenuUtils.MenuT.SetDataWithHandlers | Marlin/UltiLCD2_menu_utils.h:86-94 | every field is overwritten with the arguments |
| MenuUtils.Reset | Marlin/UltiLCD2_menu_utils.cpp:24-39 | the post function of the active item runs. The encoder returns to the menu position, nothing is selected or active, and the button press is consumed |
| MenuUtils.Press | Marlin/UltiLCD2_menu_utils.cpp:166-195 | defines a press on item index (init, then either the in-place edit or the normal item); PressStartsEdit and PressRunsSelectedItem state its effect |
| MenuUtils.Wrapped | Marlin/UltiLCD2_menu_utils.cpp:153-157 | defines the single wrap by one period; WrapIsMod, OutOfRangeDeselects and BelowRangeWrapsOnce state what it gives |
| MenuUtils.Select | Marlin/UltiLCD2_menu_utils.cpp:159-203 | defines the selection for the wrapped position, including the press; TurnSelects and the press lemmas state its effect |
| MenuUtils.Navigate | Marlin/UltiLCD2_menu_utils.cpp:147-204 | defines the encoder and button part of process_submenu; NoSelectionIgnored states that ENCODER_NO_SELECTION and a running edit skip it |
| MenuUtils.Step | Marlin/UltiLCD2_menu_utils.cpp:145-225 | defines one process_submenu call; the Step lemmas (TurnSelects to StepKeepsEditNeedsSelection) state what it does |
| MenuUtils.SelectionAfterPress | Marlin/UltiLCD2_menu_utils.cpp:193-194 | the selection is kept after a normal item's press, because MENU_NORMAL is 0 |
| MenuUtils.TurnSelects | Marlin/UltiLCD2_menu_utils.cpp:151-198 | turning the encoder wraps it modulo len items and selects the item under it, calling nothing |
| MenuUtils.WrapIsMod | Marlin/UltiLCD2_menu_utils.cpp:154-157 | the one-period wrap equals the remainder modulo the period for positions within one period either side |
| MenuUtils.OutOfRangeDeselects | Marlin/UltiLCD2_menu_utils.cpp:200-203 | a position two periods or more above 0 is still past the items after the single wrap, so the selection is cleared and nothing is called |
| MenuUtils.BelowRangeWrapsOnce | Marlin/UltiLCD2_menu_utils.cpp:153-203 | a position more than one period below 0 is still negative after the single wrap: truncating division then selects item 0 when it lies within one item below 0, and clears the selection further down without calling anything |
| MenuUtils.NoSelectionIgnored | Marlin/UltiLCD2_menu_utils.cpp:147-151 | the "no selection" encoder position changes nothing except the last position |
| MenuUtils.PressStartsEdit | Marlin/UltiLCD2_menu_utils.cpp:166-184 | pressing an in-place-edit item runs its init function. It zeroes the encoder, selects the item and makes it active, and the item's process function then runs once |
| MenuUtils.PressRunsSelectedItem | Marlin/UltiLCD2_menu_utils.cpp:185-195 | pressing a normal item runs init, and runs process only when the item was already selected; no item stays active |
| MenuUtils.PressEndsEdit | Marlin/UltiLCD2_menu_utils.cpp:212-218 | a press while an edit runs ends it through reset_submenu |
| MenuUtils.EditRuns | Marlin/UltiLCD2_menu_utils.cpp:219-223 | while an edit runs and no press occurs, its process function runs and the last position follows the encoder |
| MenuUtils.SelectionTimesOut | Marlin/UltiLCD2_menu_utils.cpp:206-210 | a selection with no input past the timeout is reset |
| MenuUtils.AccelerationOnlyWhileEditing | Marlin/UltiLCD2_menu_utils.h:107-110 | after any process_submenu step that leaves nothing selected, and after reset_submenu, the encoder is not accelerated; while an edit runs it is accelerated by the edited item's maximum |
| MenuUtils.StepKeepsEditNeedsSelection | Marlin/UltiLCD2_menu_utils.cpp:145-225 | invariant: an item with a process function is active only while some item is selected |
| MenuUtils.SelectionSet | Marlin/UltiLCD2_menu_utils.cpp:251-255 | set_selection places the encoder on the item and marks the position as moved |
| MenuUtils.SelectionSetThenStep | Marlin/UltiLCD2_menu_utils.cpp:251-255 | after set_selection(i), the next process_submenu selects item i and calls nothing |
| MenuUtils.Activate | Marlin/UltiLCD2_menu_utils.cpp:257-287 | defines set_active's new state; ActivateEffect states it |
| MenuUtils.ActivateEffect | Marlin/UltiLCD2_menu_utils.cpp:257-287 | set_active makes an edit item active and selected after its init, or runs a normal item's init and process at once. The encoder restarts at 0 and a later reset returns to the item |
| MenuUtils.DrawFlags | Marlin/UltiLCD2_menu_utils.cpp:227-243 | other flag bits are kept. MENU_ACTIVE is set if and only if item nr is selected and active, and MENU_SELECTED if and only if it is selected and not active |
| MenuUtils.DrawFlagsExclusive | Marlin/UltiLCD2_menu_utils.cpp:231-240 | at most one of MENU_ACTIVE and MENU_SELECTED is set, only for the selected item, and MENU_STATUSLINE is kept |
| MenuUtils.CRound | Marlin/UltiLCD2_menu_utils.cpp:294 | round() lands within half a unit of its argument and keeps non-negative values non-negative |
| MenuUtils.Constrain | Marlin/UltiLCD2_menu_utils.cpp:294 | constrain's result lies in [low, high] and leaves values inside unchanged |
| MenuUtils.TunedWithinBounds | Marlin/UltiLCD2_menu_utils.cpp:289-299 | a tuned value lies in [min, max]; inside the range it is the step multiple within half a step of value + delta * step |
| MenuUtils.Tuned | Marlin/UltiLCD2_menu_utils.cpp:294 | defines the new value of lcd_tune_value; TunedWithinBounds and NearestMultiple state its range and rounding |
| MenuUtils.NearestMultiple | Marlin/UltiLCD2_menu_utils.cpp:294 | rounding to a multiple of the step lands within half a step of the target |
| MenuUtils.FindBar | Marlin/UltiLCD2_menu_utils.cpp:59 | strchr finds the first '\|' or reports that there is none |
| MenuUtils.TextX | Marlin/UltiLCD2_menu_utils.cpp:73-86 | left alignment starts at left. Right alignment ends the text at left + width, and centring centres it on left + width / 2 (when no uint8_t wrap occurs) |
| MenuUtils.TwoLineY | Marlin/UltiLCD2_menu_utils.cpp:88-102 | the second line of a split string is one line height below the first |
| MenuUtils.LayoutText | Marlin/UltiLCD2_menu_utils.cpp:55-136 | a string with no bar is drawn as one line. Otherwise two lines are drawn, split at the first bar, and rejoining them gives the string back. Top alignment starts at the top |
| MenuUtils.BottomAlignedLine | Marlin/UltiLCD2_menu_utils.cpp:121-124 | a bottom-aligned single line sits one character height above the box's bottom |
| MenuUtils.LCDMenu.constructor | Marlin/UltiLCD2_menu_utils.h:105 | a new menu has nothing selected and nothing active |
| MenuUtils.LCDMenu.ActiveImpliesSelected | Marlin/UltiLCD2_menu_utils.h:118-121 | an active item is a selected one |
| MenuUtils.LCDMenu.EncoderAccelerationFactor | Marlin/UltiLCD2_menu_utils.h:107-110 | while an in-place edit runs the factor is the edited item's maximum; with nothing selected (under the state machine's invariant) it is 0 |
| MenuUtils.LCDMenu.ResetSubmenu | Marlin/UltiLCD2_menu_utils.cpp:24-39 | the new state is Reset of the old one |
| MenuUtils.LCDMenu.ProcessSubmenu | Marlin/UltiLCD2_menu_utils.cpp:145-225 | the new state is Step of the old one, so every Step lemma above holds for process_submenu |
| MenuUtils.LCDMenu.NavigateSubmenu | Marlin/UltiLCD2_menu_utils.cpp:147-205 | the encoder and button part of process_submenu equals Navigate |
| MenuUtils.LCDMenu.PressItem | Marlin/UltiLCD2_menu_utils.cpp:166-195 | the press handling equals Press |
| MenuUtils.LCDMenu.DrawSubMenu | Marlin/UltiLCD2_menu_utils.cpp:227-243 | the flags handed to the draw function are DrawFlags, or unchanged without a draw function |
| MenuUtils.LCDMenu.SetSelection | Marlin/UltiLCD2_menu_utils.cpp:251-255 | the new state is SelectionSet of the old one |
| MenuUtils.LCDMenu.SetActive | Marlin/UltiLCD2_menu_utils.cpp:257-287 | the new state is Activate of the old one |
| MenuUtils.LCDMenu.TuneInt8 | Marlin/UltiLCD2_menu_utils.h:138 | a moved encoder changes the value by its delta, clamped to [min, max], and is consumed; an unmoved encoder changes nothing |
| MenuUtils.LCDMenu.TuneValue | Marlin/UltiLCD2_menu_utils.cpp:289-299 | a moved encoder sets the value to Tuned (rounded to the step, within [min, max]) and is consumed; an unmoved encoder changes nothing |
| MenuDual.ToggleFlipsOwnBit | Marlin/UltiLCD2_menu_dual.cpp:1006-1019 | a toggle flips its own bit, keeps the others, and undoes itself |
| MenuDual.TogglesCommute | Marlin/UltiLCD2_menu_dual.cpp:1006-1019 | two toggles commute |
| MenuDual.Toggled | Marlin/UltiLCD2_menu_dual.cpp:1006-1019 | defines dual_state after `^=`; ToggleFlipsOwnBit and TogglesCommute state its effect |
| MenuDual.Visible | Marlin/UltiLCD2_menu_dual.cpp:105-144 | a chain never offers more options than it has branches |
| MenuDual.VisiblePrefix | Marlin/UltiLCD2_menu_dual.cpp:105-144 | the options of a chain's first branches are a prefix of the options of the whole chain |
| MenuDual.SelectOption | Marlin/UltiLCD2_menu_dual.cpp:105-144 | option nr fills in the nr-th offered item; a number beyond the offered items leaves the menu_t untouched |
| MenuDual.FreshOption | Marlin/UltiLCD2_menu_utils.cpp:169-170 | the item process_submenu obtains for option nr is the one OptionFn describes |
| MenuDual.OptionFn | Marlin/UltiLCD2_menu_dual.cpp:105-144 | defines the menu callback of an option chain as a function of nr; SelectOption and FreshOption tie it to the index++ chain |
| MenuDual.Idle | Marlin/UltiLCD2_menu_dual.cpp:123 | defines the condition under which the ruler lines are offered |
| MenuDual.ExtruderOffsetOptions | Marlin/UltiLCD2_menu_dual.cpp:105-144 | lists the extruder-offset options in order, the rulers only when idle; ExtruderOffsetMenuMatches counts them |
| MenuDual.ExtruderOffsetLen | Marlin/UltiLCD2_menu_dual.cpp:297 | defines the len passed to process_submenu; ExtruderOffsetMenuMatches shows it equals the options offered |
| MenuDual.DockPositionOptions | Marlin/UltiLCD2_menu_dual.cpp:550-579 | lists the dock options, MOVE only for the first nozzle; DockPositionMenuMatches counts them |
| MenuDual.DockPositionLen | Marlin/UltiLCD2_menu_dual.cpp:676-680 | defines the len passed to process_submenu; DockPositionMenuMatches shows it equals the options offered |
| MenuDual.DockMoveOptions | Marlin/UltiLCD2_menu_dual.cpp:381-405 | lists the dock-move options; FixedMenusMatch shows the len 4 passed at line 491 counts them |
| MenuDual.WipePositionOptions | Marlin/UltiLCD2_menu_dual.cpp:709-733 | lists the wipe options; FixedMenusMatch shows the len 4 passed at line 819 counts them |
| MenuDual.TcRetractOptions | Marlin/UltiLCD2_menu_dual.cpp:851-880 | lists the toolchange-retract options; FixedMenusMatch shows the len 5 passed at line 990 counts them |
| MenuDual.SimpleBuildplateOptions | Marlin/UltiLCD2_menu_dual.cpp:1317-1336 | lists the simple build-plate options; FixedMenusMatch shows the len 3 passed at line 1389 counts them |
| MenuDual.DualStateOptions | Marlin/UltiLCD2_menu_dual.cpp:1022-1051 | lists the dual-state options; FixedMenusMatch relates them to DualStateLen |
| MenuDual.DualStateLen | Marlin/UltiLCD2_menu_dual.cpp:1151 | defines the len passed to process_submenu: 5 in dual mode, 3 otherwise |
| MenuDual.ExtruderOffsetMenuMatches | Marlin/UltiLCD2_menu_dual.cpp:297 | the extruder-offset menu's len equals the number of options offered: 7 when idle; when busy the ruler lines are left out and the Y and Z offsets move up |
| MenuDual.DockPositionMenuMatches | Marlin/UltiLCD2_menu_dual.cpp:676-682 | the dock menu's len counts the options offered, and MOVE is offered if and only if the first nozzle is active |
| MenuDual.FixedMenusMatch | Marlin/UltiLCD2_menu_dual.cpp:1151-1152 | dock move, wipe, toolchange retract and build-plate menus pass their option counts. The dual-state menu reaches all five options only in dual mode, and otherwise only store, return and the dual toggle |
| MenuDual.SimpleBuildplateInitStartsEdit | Marlin/UltiLCD2_menu_dual.cpp:1379-1382 | entering the simple build-plate menu starts the Z edit on option 2 and zeroes the encoder |
| MenuDual.ToUInt8 | Marlin/UltiLCD2_menu_dual.cpp:82 | conversion to uint8_t keeps every value in [0, 255] |
| MenuDual.CellRoundTrip | Marlin/UltiLCD2_menu_dual.cpp:79-82 | an int8_t stored in a uint8_t cache cell reads back unchanged |
| MenuDual.RulerCorrected | Marlin/UltiLCD2_menu_dual.cpp:284-290 | the ruler correction leaves the first nozzle's offsets untouched |
| MenuDual.RulerCorrectionBounded | Marlin/UltiLCD2_menu_dual.cpp:284-290 | rulers at 0 change nothing. Rulers in [-20, 20] move each offset by at most 0.8 mm, against the ruler's sign |
| MenuDual.HomeOffsetZ | Marlin/UltiLCD2_menu_dual.cpp:1266-1281 | defines the Z home offset that applies to a nozzle: add_homeing[Z] for the first, add_homeing_z2 for the second |
| MenuDual.HomingCommand | Marlin/UltiLCD2_menu_dual.cpp:1419-1431 | defines the homing command text; HomingCommandShape states its form and BuildHomingCommand that the strcat sequence builds it |
| MenuDual.HomingCommandShape | Marlin/UltiLCD2_menu_dual.cpp:1419-1431 | the command is "G28 ... Z0". It names X if and only if X is unknown and Y if and only if Y is unknown, and it fits the 32-byte buffer |
| MenuDual.BuildHomingCommand | Marlin/UltiLCD2_menu_dual.cpp:1419-1431 | the strcpy/strcat sequence builds HomingCommand |
| MenuDual.HeadHoming | Marlin/UltiLCD2_menu_dual.cpp:315-325 | the head is homed if and only if neither X nor Y is known |
| MenuDual.SwitchExtruder | Marlin/UltiLCD2_menu_dual.cpp:1168-1177 | switching to the active extruder does nothing. Otherwise the head is homed if needed, changeExtruder is issued, and the target becomes active |
| MenuDual.DualMenu.constructor | Marlin/UltiLCD2_menu_dual.cpp:23 | the menus start on the first nozzle with both rulers at 0 |
| MenuDual.DualMenu.ToggleDual | Marlin/UltiLCD2_menu_dual.cpp:1006-1009 | only the DUAL_ENABLED bit flips |
| MenuDual.DualMenu.ToggleToolchange | Marlin/UltiLCD2_menu_dual.cpp:1011-1014 | only the DUAL_TOOLCHANGE bit flips |
| MenuDual.DualMenu.ToggleWipe | Marlin/UltiLCD2_menu_dual.cpp:1016-1019 | only the DUAL_WIPE bit flips |
| MenuDual.DualMenu.InitExtruderOffset | Marlin/UltiLCD2_menu_dual.cpp:277-282 | both rulers start at line 0 |
| MenuDual.DualMenu.RulerXEdit | Marlin/UltiLCD2_menu_dual.cpp:77-84 | a turn moves the X ruler by the encoder delta within [-20, 20], and the range invariant is kept |
| MenuDual.DualMenu.RulerYEdit | Marlin/UltiLCD2_menu_dual.cpp:86-93 | a turn moves the Y ruler by the encoder delta within [-20, 20], and the range invariant is kept |
| MenuDual.DualMenu.CalcExtruderOffset | Marlin/UltiLCD2_menu_dual.cpp:284-290 | the second nozzle's offsets are corrected by 0.04 mm per ruler line, and the rulers return to 0 |
| MenuDual.DualMenu.SelectNozzle | Marlin/UltiLCD2_menu_dual.cpp:1546-1566 | the first two items choose that nozzle and run the select callback; any other item runs the abort callback |
| MenuDual.DualMenu.LcdSwitchExtruder | Marlin/UltiLCD2_menu_dual.cpp:1179-1184 | the chosen nozzle becomes active without a Z move, and the print state returns to normal; Z, the known-position bits and the Z home offset are kept |
| MenuDual.ExtruderOffsetXEdit | Marlin/UltiLCD2_menu_dual.cpp:67-70 | the second nozzle's X offset is tuned in 0.01 mm steps within ±99.99 mm; nothing else in the settings changes; a turn consumes the encoder and leaves the rest of the menu as it was, an unmoved encoder changes nothing |
| MenuDual.ExtruderOffsetYEdit | Marlin/UltiLCD2_menu_dual.cpp:72-75 | the second nozzle's Y offset is tuned in 0.01 mm steps within ±99.99 mm; nothing else in the settings changes; a turn consumes the encoder and leaves the rest of the menu as it was, an unmoved encoder changes nothing |
| MenuDual.ZOffsetEdit | Marlin/UltiLCD2_menu_dual.cpp:95-102 | the Z distance between the nozzles becomes the tuned value, within ±10 mm; the X and Y offsets, dock and wipe settings are kept; a turn consumes the encoder and leaves the rest of the menu as it was, an unmoved encoder changes nothing |
| MenuDual.PrepareBuildplateAdjust | Marlin/UltiLCD2_menu_dual.cpp:1403-1436 | the settings are reloaded, the active nozzle's Z home offset becomes 0 and the other's is the reloaded one. Then G28 is issued for the unknown axes and Z, the head moves to the centre, and X and Y are released |
| MenuDual.SimpleBuildplateStore | Marlin/UltiLCD2_menu_dual.cpp:1245-1287 | the active nozzle's Z home offset loses the current Z, the other's is kept, and Z becomes 0. The matching store routine runs, then lcd_simple_buildplate_quit homes the bed and the head and issues M84; the print state is kept |
| MenuPrint.EndOfPrintRetractTieBreak | Marlin/UltiLCD2_menu_print.cpp:101-109 | the abort retraction tops up an outstanding print retraction to the nominal length. It retracts nothing when that retraction already covers it, and it is never negative |
| MenuPrint.EndOfPrintRetractLength | Marlin/UltiLCD2_menu_print.cpp:101-109 | defines the end-of-print retraction length; EndOfPrintRetractTieBreak states it |
| MenuPrint.PauseLiftProperties | Marlin/UltiLCD2_menu_print.cpp:1352-1362 | below 70 mm the head lifts at least 20 mm and to at least 70 mm. The lift never grows with height. On a machine with Z_MAX_POS of at least 90 mm and a head at or below Z_MAX_POS, the lift never passes Z_MAX_POS |
| MenuPrint.PauseLift | Marlin/UltiLCD2_menu_print.cpp:1352-1362 | defines zdiff of the pause; PauseLiftProperties states its bounds |
| MenuPrint.PauseX | Marlin/UltiLCD2_menu_print.cpp:1368 | the park X is at least 5, and is 5 plus the nozzle's X offset rounded down when that offset is positive |
| MenuPrint.StripControl | Marlin/UltiLCD2_menu_print.cpp:407 | the stripped line is a prefix ending in a character not below ' ', and only control characters were removed |
| MenuPrint.SkipSpaces | Marlin/UltiLCD2_menu_print.cpp:409 | atol skips a suffix-preserving run of leading white space |
| MenuPrint.LeadingDigits | Marlin/UltiLCD2_menu_print.cpp:409 | atol reads exactly the maximal run of leading digits |
| MenuPrint.AtolDecimal | Marlin/UltiLCD2_menu_print.cpp:409 | atol reads back the decimal notation of n, whatever non-digit follows |
| MenuPrint.AtolOfDigits | Marlin/UltiLCD2_menu_print.cpp:409 | a value starting with a digit is read as its leading digits |
| MenuPrint.Atol | Marlin/UltiLCD2_menu_print.cpp:409 | defines atol: white space, an optional sign, then the leading digits; AtolDecimal and AtolOfDigits state what it reads |
| MenuPrint.MaterialTypeOf | Marlin/UltiLCD2_menu_print.cpp:416-417 | strncpy plus the terminator keeps at most the first seven characters |
| MenuPrint.HeaderFields | Marlin/UltiLCD2_menu_print.cpp:403-407 | the header read yields one field per read line |
| MenuPrint.ParseLine | Marlin/UltiLCD2_menu_print.cpp:408-428 | defines the field a header line sets, tested in the source's order; ParseLineKeys and HeaderKeysExclusive state it |
| MenuPrint.ColonKeysAgree | Marlin/UltiLCD2_menu_print.cpp:408-428 | two colon-terminated keys that start the same line have the same length |
| MenuPrint.HeaderKeysExclusive | Marlin/UltiLCD2_menu_print.cpp:408-428 | a header line starts with at most one key, so the order of the strncmp tests does not matter |
| MenuPrint.ParseLineKeys | Marlin/UltiLCD2_menu_print.cpp:408-428 | a time or material amount is taken only from a line under its own key, and a type has at most seven characters |
| MenuPrint.ApplyFieldsBounds | Marlin/UltiLCD2_menu_print.cpp:403-431 | applying fields keeps the types within seven characters, and leaves time and amounts alone unless a field sets them |
| MenuPrint.HeaderDetailsBounds | Marlin/UltiLCD2_menu_print.cpp:393-431 | after 16 reads the types hold at most seven characters, and time and material amounts stay 0 unless a line carries their key |
| MenuPrint.TimeLineRoundTrip | Marlin/UltiLCD2_menu_print.cpp:405-409 | a ";TIME:" line with its line end is read back as exactly that number of seconds |
| MenuPrint.StrippedLength | Marlin/UltiLCD2_menu_print.cpp:407 | the stripping loop leaves exactly StripControl of the buffer |
| MenuPrint.ReadHeader | Marlin/UltiLCD2_menu_print.cpp:403-431 | the detail loop computes HeaderDetails of the first 16 reads |
| MenuPrint.LastDot | Marlin/UltiLCD2_menu_print.cpp:350 | strrchr finds the last '.' or reports that there is none |
| MenuPrint.FirstDot | Marlin/UltiLCD2_menu_print.cpp:574 | strchr finds the first '.' or reports that there is none |
| MenuPrint.CutAtLastDot | Marlin/UltiLCD2_menu_print.cpp:350 | cutting at the last dot leaves a prefix of the name |
| MenuPrint.CutAtFirstDot | Marlin/UltiLCD2_menu_print.cpp:574 | cutting at the first dot leaves a dot-free prefix, and a dot-free name unchanged |
| MenuPrint.CutAtLastDotRemovesExtension | Marlin/UltiLCD2_menu_print.cpp:346-351 | the list shows base for a file named base.ext |
| MenuPrint.ListName | Marlin/UltiLCD2_menu_print.cpp:344-351 | defines the name shown in the file list: a file loses its extension, a directory keeps its name; CutAtLastDotRemovesExtension states it |
| MenuPrint.PrintTitle | Marlin/UltiLCD2_menu_print.cpp:568-574 | defines the print title; PrintTitleShape states its shape |
| MenuPrint.PrintTitleShape | Marlin/UltiLCD2_menu_print.cpp:568-574 | the print title is a dot-free prefix of the file name, at most 20 characters long, and equals a short dot-free name |
| MenuPrint.TitleAndListAgree | Marlin/UltiLCD2_menu_print.cpp:568-574 | for a short dot-free base with an extension, the title and the list name are both the base |
| MenuPrint.CachedName | Marlin/UltiLCD2_menu_print.cpp:338-342 | defines the name the cache search finds; CachedNameIsLast states it |
| MenuPrint.CachedNameIsLast | Marlin/UltiLCD2_menu_print.cpp:338-342 | the cache search yields the name of the last entry with id nr (every match is copied, so the last wins), and an empty name when no entry has it |
| MenuPrint.LcdCache.constructor | Marlin/UltiLCD2_menu_print.cpp:52-58 | lcd_clear_cache marks every entry free (255) and the details as not cached |
| MenuPrint.LcdCache.FilenameCallback | Marlin/UltiLCD2_menu_print.cpp:325-367 | entry 0 is "< RETURN" or "< BACK". A cached name is returned without change. Otherwise the list name is stored in slot nr % count, which is marked free again on a read error, with an empty name returned |
| MenuPrint.LcdCache.DetailsCallback | Marlin/UltiLCD2_menu_print.cpp:369-439 | details are read only for a cached file entry not already shown, and only when the lookup succeeds. They are the header details of an open file or the defaults, and a read error invalidates them |
| MenuPrint.BringUpExtruder | Marlin/UltiLCD2_menu_print.cpp:247-266 | the extruder to prime becomes active in either branch; with no abort the print state is kept, and otherwise it can only become ABORT; the Z home offset is kept |
| MenuPrint.PrintState.constructor | Marlin/UltiLCD2_menu_print.cpp:47-49 | nothing is primed, retracted, printing, paused or requested |
| MenuPrint.PrintState.EndOfPrintRetract | Marlin/UltiLCD2_menu_print.cpp:95-117 | a primed extruder not yet toolchange-retracted is retracted by the topped-up length and marked toolchange-retracted by that length. The print retraction flag is left as it is, and otherwise nothing happens |
| MenuPrint.PrintState.RetractDue | Marlin/UltiLCD2_menu_print.cpp:95-98 | defines when the end-of-print retraction of an extruder is due; EndOfPrintRetract states what happens then |
| MenuPrint.PrintState.AbortMoves | Marlin/UltiLCD2_menu_print.cpp:86-146 | unless quick-stopping, the machine returns to the first extruder. It then makes the end-of-print retraction, moves to the safe Y, and homes (head and bed apart near the top); priming is forgotten; the Z home offset is kept |
| MenuPrint.PrintState.AbortPrint | Marlin/UltiLCD2_menu_print.cpp:60-169 | after an abort nothing is primed, printing or paused. The multipliers, fan and volumetric factors are reset, the print state is normal, and the first extruder is active unless quick-stopping. The extruder then active gets its end-of-print retraction when due (toolchange flag set, recover length the topped-up length), print retractions are kept, and the log is the switch back, the retraction, the safe-Y move and the homing, in that order; the Z home offset is kept |
| MenuPrint.PrintState.FinishAbort | Marlin/UltiLCD2_menu_print.cpp:157-167 | the pause flags, print state, fan and volumetric factors are reset; the Z home offset, Z and the known-position bits are kept |
| MenuPrint.PrintState.PrimeExtruder | Marlin/UltiLCD2_menu_print.cpp:229-299 | a completed priming marks the extruder and the end-of-print retraction as primed; an abort stops with the print state ABORT and the retraction records untouched. With no abort and wiping off, the toolchange retraction is cleared and the G10 leaves the extruder print-retracted by the G10 handler's length; with wiping on it is not print-retracted; the Z home offset is kept |
| MenuPrint.PrintState.ForgetRetraction | Marlin/UltiLCD2_menu_print.cpp:276-279 | both retraction records of the extruder are cleared |
| MenuPrint.PrintState.ForgetPrintRetractions | Marlin/UltiLCD2_menu_print.cpp:206-211 | all print retractions are cleared and the toolchange records are kept |
| MenuPrint.PrintState.PrimeExtruders | Marlin/UltiLCD2_menu_print.cpp:213-300 | only extruders with material are primed, from the last to the first. The end-of-print flag is set if and only if some extruder is primed, and only a primed extruder can be print-retracted (by the G10 with wiping off). With no abort, exactly the extruders with material are primed and the lowest one is active; the Z home offset is kept |
| MenuPrint.PrintState.DoStartPrint | Marlin/UltiLCD2_menu_print.cpp:197-318 | print retractions are cleared at the start (206-211). At the end an unprimed extruder has none, and with wiping on no extruder has one. With no abort, exactly the extruders with material are primed, the first used extruder is active, each primed extruder is print-retracted by the G10 when wiping is off, G1 E0 is issued last, and the print starts; the Z home offset is kept |
| MenuPrint.PrintState.Pause | Marlin/UltiLCD2_menu_print.cpp:1342-1383 | a running, unpaused print pauses when the queue is ready. It issues M601 with the park position, lift and retract length, and the end-of-print retraction is cancelled; otherwise the request is remembered. The retraction flags and lengths, the multipliers, the fan and the volumetric factors are unchanged; the Z home offset and the known-position bits are kept |
| MenuPrint.PrintState.Resume | Marlin/UltiLCD2_menu_print.cpp:776-782 | choosing resume ends the pause and re-arms the end-of-print retraction while the card prints; the retraction flags and lengths, the multipliers, the fan and the volumetric factors are untouched |

## Left out

- Script lists are sequences, not linked nodes, so allocation, `new` and
  `delete` of nodes and aliasing are not modelled.
- The serial echo of each line `readScript` reads is not modelled. Neither
  are the `idle()` and `checkHitEndstops()` calls between the commands of
  `processScript`, nor the effect of `process_command`: the executed lines
  are returned in order.
- MAX_CMD_SIZE is taken to be 96, Marlin's default; its definition is not
  part of this model.
- `enqueT0` and `enqueT1` are defined inline in commandbuffer.h as calls
  to `enqueScript`, whose definition is not in the files modelled, so all
  three are not part of this model.
- `createScript` and `deleteScript` are covered by the append and release
  steps of ReadScript and Destroy.
- EEPROM values are held as whole values at their start addresses, not as
  bytes. An unwritten float reads as 0.0 instead of the NaN of erased
  memory. `eeprom_write_block` copies bytes; the model writes one float
  cell per four bytes. `Dual_PrintSettings` (serial output) is not modelled.
- Drawing, LEDs, beeps and key clicks are not modelled. Neither are the
  32-byte string buffers, except that the homing command is shown to fit
  one.
- The inactivity timeout (`millis() - last_user_interaction`) is a boolean
  parameter.
- LCDMenu.TuneInt8: only the declaration of the int8_t `lcd_tune_value` is
  in the files modelled. It is taken to add the encoder delta, clamp and
  consume it, as the float version does.
- LCDMenu.TuneValue: it works on reals, so float rounding is not
  modelled, and it requires a positive step (every caller passes a
  positive step: 0.01, 0.1 or 60).
- The encoder constants `ENCODER_TICKS_PER_MAIN_MENU_ITEM` (4) and
  `ENCODER_NO_SELECTION` (-44), and `MAIN_MENU_ITEM_POS`, come from the
  LCD library, which is not part of this model.
- The `dual_state` bits are taken as 1, 2 and 4. Of `printing_state`, only
  NORMAL < ABORT matters.
- MenuPrint.PauseX: the conversion to `uint16_t` is taken without
  wrap-around, because offsets are at most ±99.99 mm.
- MenuPrint.Atol: `long` overflow is not modelled. `strtod` is kept as the
  text it would read.
- LCD_CACHE_COUNT is a parameter. File names are not limited in length,
  except the 20-character print title.
- These are logged as commands, not modelled:
  - `changeExtruder`, `processWipe`, `reheatNozzle`, the priming extrusion;
  - the homing routines and the moves to heat-up, safe-Y and centre;
  - the settings routines (`Config_RetrieveSettings`, `Config_StoreSettings`,
    `Dual_StoreAddHomeingZ2`).
- MenuDual.SwitchExtruder: `changeExtruder` is not part of this model, and
  two assumptions about its effect are made. It makes the target the active
  extruder. It leaves `current_position[Z_AXIS]`, the known-position bits,
  the Z home offset and the print state unchanged, although with `moveZ`
  set the firmware's toolchange moves Z. MenuPrint.PrintState.AbortPrint
  rests on the second assumption: its choice between homing head and bed
  apart and homing all at once reads Z after `switch_extruder(0, true)`, and
  the model takes that Z to be the Z from before the switch.
- MenuPrint.PrintState.DoStartPrint: the G10 handler is not part of this
  model. The G10 after a no-wipe prime is logged and taken to retract the
  active extruder, whose print retraction the priming has just cleared. The
  recover length the handler records is a parameter (`g10Length`), and so
  is not tied to `retract_length`.
- MenuPrint.PrintState.DoStartPrint: `reset_retractstate()` is not defined
  in the files modelled, so it is not part of this model. The toolchange
  retraction records of extruders that are not primed are taken to be kept
  (PrimeExtruders and DoStartPrint state them unchanged).
- MenuPrint.ParseLine: `LCD_DETAIL_CACHE_TIME` and
  `LCD_DETAIL_CACHE_MATERIAL` are `uint32_t` cells, but the model stores
  atol's `long` result as it is. A negative value such as `;TIME:-5` would
  wrap to 4294967291 in the firmware and stays -5 in the model.
- CommandBuffer.TrimTrailing and MenuPrint.StripControl: a line is the
  whole chunk `fgets` returned. The C code stops at an embedded NUL
  (`strlen`, `strncpy`); a chunk holding a NUL byte is therefore longer in
  the model than in the firmware.
- MenuUtils.Step, MenuUtils.EditRuns and MenuUtils.LCDMenu.ProcessSubmenu:
  a menu callback is only logged by name, and whatever it writes is lost.
  The edit callbacks call `lcd_tune_value`, which zeroes
  `lcd_lib_encoder_pos` (UltiLCD2_menu_utils.cpp:289-299); process_submenu
  copies that into `lastEncoderPos` right after the call (line 222), where
  the model keeps the position from before the call. These members match
  the source for callbacks that leave the menu state alone.
- MenuDual.SimpleBuildplateStore: `st_synchronize` and
  `plan_set_position` are not modelled; the new Z of 0 is kept only as the
  machine's current Z.
- MenuDual.PrepareBuildplateAdjust: `Config_RetrieveSettings` is modelled
  only as reloading `add_homeing[Z]`. Its effect on `add_homeing_z2` goes
  through the main settings store, which is not part of this model.
- These effects of abortPrint and doStartPrint are not modelled:
  - `quickStop`, the cool-down, the minimum extrusion temperature;
  - the lifetime statistics, `axis_relative_state`, and clearing the
    command queue;
  - the FWRETRACT reheat flag and `extruder_lastused`.
- Menus that only draw are not modelled: the heat-up and time-left
  screens, the dock, wipe and toolchange-retract tune screens, and the
  drawing and `nextMenu` part of `lcd_select_nozzle`.

## Behaviour of the code that the model keeps

- `abortPrint` sets TOOLCHANGE_RETRACTED without clearing
  EXTRUDER_RETRACTED, so both can hold for one extruder. The model keeps
  two independent flags per extruder, each with its own recover length
  (EndOfPrintRetract).
- When an abort finds a print retraction outstanding, it retracts only the
  missing part (the nominal length minus the print retraction, floored at
  0). `toolchange_recover_length` records that topped-up length, not the
  nominal one.
- `switch_extruder` homes the head itself when neither X nor Y is known.
- On version-0 EEPROM data, `Dual_RetrieveSettings` keeps the Z offset and
  the extruder offsets read from EEPROM and sets only the dock and wipe
  positions to their defaults.
- A prime without wiping is followed by a G10 retraction. A print started
  with wiping off therefore begins with every primed extruder
  print-retracted, and an abort of it takes the top-up branch above.
- `commandbuffer.h` declares neither the `wipe` list nor `processScript`.
  `commandbuffer.cpp` uses both, and the model follows the `.cpp`.
- MENU_NORMAL is 0, so the test `flags & MENU_NORMAL` after a normal item's
  press never holds, and the selection is kept (SelectionAfterPress).
