/**
 * Firmware-wide state that the menu and toolchange code share: the active
 * extruder, the Z home offset of the first nozzle, which axes have a known
 * position, the print state, and the log of commands handed to the motion
 * queue and to the routines this model does not contain (changeExtruder,
 * processWipe, the homing moves, ...).
 */
module Machine {

  /** EXTRUDERS: the machine has exactly two nozzles. */
  const Extruders: nat := 2

  type Extruder = e: int | 0 <= e < Extruders

  /**
   * printing_state values. Only their order matters to the code modelled
   * here (`printing_state < PRINT_STATE_ABORT`); their definitions are not
   * part of this model, and NORMAL is taken to lie below ABORT.
   */
  const PrintStateNormal: int := 0
  const PrintStateAbort: int := 7

  /**
   * A character compared the way avr-gcc compares a plain `char`: signed, so
   * that the bytes 0x80..0xFF are negative and fall below ' '.
   */
  function SignedChar(c: char): int {
    if c as int >= 128 then c as int - 256 else c as int
  }

  /** What the toolchange and menu code hands to the outside world, in order. */
  datatype Command =
    | Gcode(text: string)                                   // enquecommand / process_command
    | SetEPositionAndMove(length: real, feedrate: real)     // plan_set_e_position(length), then an E move to 0
    | HomeHead                                              // CommandBuffer::homeHead
    | HomeBed                                               // CommandBuffer::homeBed
    | HomeAll                                               // CommandBuffer::homeAll
    | MoveToSafeY                                           // CommandBuffer::move2SafeYPos
    | ChangeExtruder(target: Extruder, moveZ: bool)         // changeExtruder
    | MoveToHeatup                                          // CommandBuffer::move2heatup
    | ReheatNozzle(e: Extruder)                             // reheatNozzle
    | ProcessWipe                                           // cmdBuffer.processWipe
    | PrimeNozzle(e: Extruder)                              // preparePriming + PRIMING_MM3 extrusion
    | MoveToPrimingHeight                                   // G1 Z<PRIMING_HEIGHT> F<homing feedrate>
    | MoveToCenter                                          // G1 F<homing feedrate> Z20 X<center> Y<center>
    | PauseMove(x: int, y: int, zLift: int, retractLen: real)  // M601 X Y Z L
    | Routine(name: string)                                 // a settings routine such as Config_StoreSettings

  class Machine {
    var activeExtruder: Extruder
    /** add_homeing[Z_AXIS]: the Z home offset of the first nozzle. */
    var addHomeingZ: real
    /** position_state & KNOWNPOS_X, position_state & KNOWNPOS_Y */
    var knownX: bool
    var knownY: bool
    /** current_position[Z_AXIS] */
    var currentZ: real
    var printingState: int
    var log: seq<Command>

    constructor (addHomeingZ: real)
      ensures activeExtruder == 0 && this.addHomeingZ == addHomeingZ
      ensures !knownX && !knownY && currentZ == 0.0 && log == []
      ensures printingState == PrintStateNormal
    {
      activeExtruder := 0;
      this.addHomeingZ := addHomeingZ;
      knownX, knownY := false, false;
      currentZ := 0.0;
      printingState := PrintStateNormal;
      log := [];
    }
  }
}
