/**
 * Persistence of the dual-extrusion settings (ConfigurationDual.cpp): the Z
 * home offset of the second nozzle, the extruder offsets, and the dock and
 * wipe positions, kept in EEPROM behind a magic number and a version word.
 *
 * The EEPROM is a map from a start address to the value written there, with
 * the float values kept as reals. An address that was never written reads as
 * erased memory.
 */
module ConfigurationDual {

  const EepromDualMagic: nat := 0x218DE93C
  const StoreDualVersion: nat := 1

  const EepromDualStart: int := 0x600      // 4 byte magic number
  const EepromDualVersion: int := 0x604    // 2 bytes
  const EepromAddHomeingZ2: int := 0x606   // 4 bytes
  const EepromExtruderOffset: int := 0x60A // 16 bytes
  const EepromDockPosition: int := 0x61A   // 8 bytes
  const EepromWipePosition: int := 0x622   // 8 bytes
  const EepromDualReserved: int := 0x62A   // next free address

  datatype Vec2 = Vec2(x: real, y: real)

  const DefaultDock: Vec2 := Vec2(218.0, 41.0)
  const DefaultWipe: Vec2 := Vec2(90.5, 24.0)

  /** extruder_offset[2][EXTRUDERS], in memory order: X of both nozzles, then Y of both. */
  datatype Offsets = Offsets(x0: real, x1: real, y0: real, y1: real)

  /** All offsets zero: what Dual_ResetDefault copies when EXTRUDER_OFFSET_X/Y are not configured. */
  const ZeroOffsets: Offsets := Offsets(0.0, 0.0, 0.0, 0.0)

  datatype Settings = Settings(addHomeingZ2: real, offset: Offsets, dock: Vec2, wipe: Vec2)

  /** What Dual_ResetDefault leaves: every setting takes its default. */
  function Defaults(addHomeingZ: real, defaultOffset: Offsets): Settings {
    Settings(addHomeingZ, defaultOffset, DefaultDock, DefaultWipe)
  }

  datatype Cell = Dword(d: nat) | Word(w: nat) | Float(f: real)

  function CellSize(c: Cell): nat {
    match c
    case Dword(_) => 4
    case Word(_) => 2
    case Float(_) => 4
  }

  datatype Write = Write(addr: int, cell: Cell)

  type Cells = map<int, Cell>

  /** eeprom_read_dword: erased memory reads as 0xFFFFFFFF. */
  function ReadDword(cells: Cells, addr: int): nat {
    if addr in cells && cells[addr].Dword? then cells[addr].d else 0xFFFF_FFFF
  }

  /** eeprom_read_word: erased memory reads as 0xFFFF. */
  function ReadWord(cells: Cells, addr: int): nat {
    if addr in cells && cells[addr].Word? then cells[addr].w else 0xFFFF
  }

  function ReadFloat(cells: Cells, addr: int): real {
    if addr in cells && cells[addr].Float? then cells[addr].f else 0.0
  }

  function ReadVec2(cells: Cells, addr: int): Vec2 {
    Vec2(ReadFloat(cells, addr), ReadFloat(cells, addr + 4))
  }

  function ReadOffsets(cells: Cells): Offsets {
    var a := EepromExtruderOffset;
    Offsets(ReadFloat(cells, a), ReadFloat(cells, a + 4), ReadFloat(cells, a + 8), ReadFloat(cells, a + 12))
  }

  /** The writes of Dual_StoreSettings, in the order it issues them: data, then version, then magic. */
  function StoreWrites(s: Settings): (ws: seq<Write>)
    ensures |ws| == 11
    ensures ws[|ws| - 1] == Write(EepromDualStart, Dword(EepromDualMagic))
    ensures ws[|ws| - 2] == Write(EepromDualVersion, Word(StoreDualVersion))
    ensures forall i :: 0 <= i < |ws| - 2 ==> ws[i].cell.Float?
  {
    [ Write(EepromAddHomeingZ2, Float(s.addHomeingZ2)),
      Write(EepromExtruderOffset, Float(s.offset.x0)),
      Write(EepromExtruderOffset + 4, Float(s.offset.x1)),
      Write(EepromExtruderOffset + 8, Float(s.offset.y0)),
      Write(EepromExtruderOffset + 12, Float(s.offset.y1)),
      Write(EepromDockPosition, Float(s.dock.x)),
      Write(EepromDockPosition + 4, Float(s.dock.y)),
      Write(EepromWipePosition, Float(s.wipe.x)),
      Write(EepromWipePosition + 4, Float(s.wipe.y)),
      Write(EepromDualVersion, Word(StoreDualVersion)),
      Write(EepromDualStart, Dword(EepromDualMagic)) ]
  }

  /** The EEPROM after a sequence of writes, issued in order. */
  function Apply(cells: Cells, ws: seq<Write>): Cells
    decreases |ws|
  {
    if ws == [] then cells
    else
      var w := ws[|ws| - 1];
      Apply(cells, ws[..|ws| - 1])[w.addr := w.cell]
  }

  /** One more write on top of a sequence of writes. */
  lemma ConcatAssoc<T>(a: seq<T>, b: seq<T>, c: seq<T>)
    ensures (a + b) + c == a + (b + c)
  {
  }

  lemma ApplySnoc(cells: Cells, ws: seq<Write>, w: Write)
    ensures Apply(cells, ws + [w]) == Apply(cells, ws)[w.addr := w.cell]
  {
    assert (ws + [w])[..|ws|] == ws;
  }

  /** eeprom_write_block of an array of floats: one float every four bytes from `addr`. */
  function BlockWrites(addr: int, fs: seq<real>): (ws: seq<Write>)
    ensures |ws| == |fs|
    ensures forall i :: 0 <= i < |fs| ==> ws[i] == Write(addr + 4 * i, Float(fs[i]))
  {
    if fs == [] then [] else BlockWrites(addr, fs[..|fs| - 1]) + [Write(addr + 4 * (|fs| - 1), Float(fs[|fs| - 1]))]
  }

  /** One more float of a block, written after those before it. */
  lemma BlockWritesSnoc(addr: int, fs: seq<real>, i: nat)
    requires i < |fs|
    ensures BlockWrites(addr, fs[..i + 1]) == BlockWrites(addr, fs[..i]) + [Write(addr + 4 * i, Float(fs[i]))]
  {
    assert fs[..i + 1][..i] == fs[..i];
  }

  /** What Dual_RetrieveSettings leaves in the settings for a given EEPROM content. */
  function Retrieved(cells: Cells, addHomeingZ: real, defaultOffset: Offsets): Settings {
    if ReadDword(cells, EepromDualStart) == EepromDualMagic then
      var version := ReadWord(cells, EepromDualVersion);
      var z2 := ReadFloat(cells, EepromAddHomeingZ2);
      var offset := ReadOffsets(cells);
      if version > 0 then
        Settings(z2, offset, ReadVec2(cells, EepromDockPosition), ReadVec2(cells, EepromWipePosition))
      else
        Settings(z2, offset, DefaultDock, DefaultWipe)
    else
      Defaults(addHomeingZ, defaultOffset)
  }

  /** A write leaves every other start address as it was. */
  lemma {:induction false} ApplyKeeps(cells: Cells, ws: seq<Write>, addr: int)
    requires forall i :: 0 <= i < |ws| ==> ws[i].addr != addr
    ensures (addr in Apply(cells, ws)) == (addr in cells)
    ensures addr in cells ==> Apply(cells, ws)[addr] == cells[addr]
    decreases |ws|
  {
    if ws != [] {
      ApplyKeeps(cells, ws[..|ws| - 1], addr);
    }
  }

  /** The last write to an address is what that address holds afterwards. */
  lemma {:induction false} ApplyLast(cells: Cells, ws: seq<Write>, i: nat)
    requires i < |ws|
    requires forall j :: i < j < |ws| ==> ws[j].addr != ws[i].addr
    ensures ws[i].addr in Apply(cells, ws) && Apply(cells, ws)[ws[i].addr] == ws[i].cell
    decreases |ws|
  {
    if i < |ws| - 1 {
      ApplyLast(cells, ws[..|ws| - 1], i);
    }
  }

  /** Storing and then retrieving gives back exactly the stored settings, whatever the EEPROM held before. */
  lemma StoreRetrieveRoundTrip(cells: Cells, s: Settings, addHomeingZ: real, defaultOffset: Offsets)
    ensures Retrieved(Apply(cells, StoreWrites(s)), addHomeingZ, defaultOffset) == s
  {
    var ws := StoreWrites(s);
    var i := 0;
    while i < |ws|
      invariant i <= |ws|
      invariant forall j :: 0 <= j < i ==> ws[j].addr in Apply(cells, ws) && Apply(cells, ws)[ws[j].addr] == ws[j].cell
    {
      ApplyLast(cells, ws, i);
      i := i + 1;
    }
    var c := Apply(cells, ws);
    assert ws == [ Write(EepromAddHomeingZ2, Float(s.addHomeingZ2)),
      Write(EepromExtruderOffset, Float(s.offset.x0)),
      Write(EepromExtruderOffset + 4, Float(s.offset.x1)),
      Write(EepromExtruderOffset + 8, Float(s.offset.y0)),
      Write(EepromExtruderOffset + 12, Float(s.offset.y1)),
      Write(EepromDockPosition, Float(s.dock.x)),
      Write(EepromDockPosition + 4, Float(s.dock.y)),
      Write(EepromWipePosition, Float(s.wipe.x)),
      Write(EepromWipePosition + 4, Float(s.wipe.y)),
      Write(EepromDualVersion, Word(StoreDualVersion)),
      Write(EepromDualStart, Dword(EepromDualMagic)) ];
    assert ReadOffsets(c) == s.offset by {
      assert c[ws[1].addr] == ws[1].cell && c[ws[2].addr] == ws[2].cell;
      assert c[ws[3].addr] == ws[3].cell && c[ws[4].addr] == ws[4].cell;
    }
    assert ReadVec2(c, EepromDockPosition) == s.dock by {
      assert c[ws[5].addr] == ws[5].cell && c[ws[6].addr] == ws[6].cell;
    }
    assert ReadVec2(c, EepromWipePosition) == s.wipe by {
      assert c[ws[7].addr] == ws[7].cell && c[ws[8].addr] == ws[8].cell;
    }
    assert c[ws[0].addr] == ws[0].cell && c[ws[9].addr] == ws[9].cell && c[ws[10].addr] == ws[10].cell;
  }

  /** Without the magic number every setting takes its default. */
  lemma MagicMismatchDefaults(cells: Cells, addHomeingZ: real, defaultOffset: Offsets)
    requires ReadDword(cells, EepromDualStart) != EepromDualMagic
    ensures Retrieved(cells, addHomeingZ, defaultOffset) == Settings(addHomeingZ, defaultOffset, Vec2(218.0, 41.0), Vec2(90.5, 24.0))
  {
  }

  /** Version 0 data: the Z offset and the extruder offsets come from EEPROM, dock and wipe from the defaults. */
  lemma VersionZeroPartialDefaults(cells: Cells, addHomeingZ: real, defaultOffset: Offsets)
    requires ReadDword(cells, EepromDualStart) == EepromDualMagic
    requires ReadWord(cells, EepromDualVersion) == 0
    ensures var r := Retrieved(cells, addHomeingZ, defaultOffset);
      && r.addHomeingZ2 == ReadFloat(cells, EepromAddHomeingZ2)
      && r.offset == ReadOffsets(cells)
      && r.dock == DefaultDock && r.wipe == DefaultWipe
  {
  }

  /** Any later version reads everything from EEPROM. */
  lemma VersionOneReadsAll(cells: Cells, addHomeingZ: real, defaultOffset: Offsets)
    requires ReadDword(cells, EepromDualStart) == EepromDualMagic
    requires ReadWord(cells, EepromDualVersion) >= 1
    ensures Retrieved(cells, addHomeingZ, defaultOffset) ==
      Settings(ReadFloat(cells, EepromAddHomeingZ2), ReadOffsets(cells),
               ReadVec2(cells, EepromDockPosition), ReadVec2(cells, EepromWipePosition))
  {
  }

  /** Two writes whose byte ranges do not overlap. */
  predicate Disjoint(a: Write, b: Write) {
    a.addr + CellSize(a.cell) <= b.addr || b.addr + CellSize(b.cell) <= a.addr
  }

  /** The blocks, the version and the magic occupy disjoint ranges inside [0x600, 0x62A). */
  lemma StoreLayoutDisjoint(s: Settings)
    ensures var ws := StoreWrites(s);
      && (forall i :: 0 <= i < |ws| ==>
            EepromDualStart <= ws[i].addr && ws[i].addr + CellSize(ws[i].cell) <= EepromDualReserved)
      && (forall i, j :: 0 <= i < j < |ws| ==> Disjoint(ws[i], ws[j]))
  {
  }

  /**
   * The magic number is written last: a store cut short after any proper
   * prefix of its writes leaves the magic word as it was, so EEPROM that was
   * not valid before still retrieves the defaults.
   */
  lemma InterruptedStoreKeepsMagic(cells: Cells, s: Settings, k: nat, addHomeingZ: real, defaultOffset: Offsets)
    requires k < |StoreWrites(s)|
    ensures ReadDword(Apply(cells, StoreWrites(s)[..k]), EepromDualStart) == ReadDword(cells, EepromDualStart)
    ensures ReadDword(cells, EepromDualStart) != EepromDualMagic ==>
      Retrieved(Apply(cells, StoreWrites(s)[..k]), addHomeingZ, defaultOffset) == Defaults(addHomeingZ, defaultOffset)
  {
    var ws := StoreWrites(s)[..k];
    ApplyKeeps(cells, ws, EepromDualStart);
  }

  /** The EEPROM: its content and the writes issued to it, in order. */
  class Eeprom {
    var cells: Cells
    var log: seq<Write>

    constructor (cells: Cells)
      ensures this.cells == cells && log == []
    {
      this.cells := cells;
      log := [];
    }

    /** eeprom_write_float / _word / _dword, and one element of eeprom_write_block. */
    method WriteCell(addr: int, cell: Cell)
      modifies this
      ensures cells == old(cells)[addr := cell]
      ensures log == old(log) + [Write(addr, cell)]
    {
      cells := cells[addr := cell];
      log := log + [Write(addr, cell)];
    }
  }

  /** The global dual settings: add_homeing_z2, extruder_offset, dock_position, wipe_position. */
  class DualSettings {
    var addHomeingZ2: real
    var offset: Offsets
    var dock: Vec2
    var wipe: Vec2

    function Snapshot(): Settings
      reads this
    {
      Settings(addHomeingZ2, offset, dock, wipe)
    }

    /** The globals' initial values; extruder_offset is initialised outside this file. */
    constructor (initialOffset: Offsets)
      ensures Snapshot() == Settings(0.0, initialOffset, DefaultDock, DefaultWipe)
    {
      addHomeingZ2 := 0.0;
      offset := initialOffset;
      dock := DefaultDock;
      wipe := DefaultWipe;
    }

    /** Dual_ResetDefault: every setting is assigned, so the result does not depend on the old values. */
    method ResetDefault(addHomeingZ: real, defaultOffset: Offsets)
      modifies this
      ensures Snapshot() == Defaults(addHomeingZ, defaultOffset)
    {
      addHomeingZ2 := addHomeingZ;
      dock := Vec2(218.0, 41.0);
      wipe := Vec2(90.5, 24.0);
      offset := defaultOffset;
    }

    /** Dual_StoreSettings: the data blocks first, then the version word, the magic number last. */
    method StoreSettings(eeprom: Eeprom)
      modifies eeprom
      ensures eeprom.log == old(eeprom.log) + StoreWrites(Snapshot())
      ensures eeprom.cells == Apply(old(eeprom.cells), StoreWrites(Snapshot()))
    {
      var s := Snapshot();
      ghost var c0, log0 := eeprom.cells, eeprom.log;
      eeprom.WriteCell(EepromAddHomeingZ2, Float(s.addHomeingZ2));
      ApplySnoc(c0, [], Write(EepromAddHomeingZ2, Float(s.addHomeingZ2)));
      ghost var done := [] + [Write(EepromAddHomeingZ2, Float(s.addHomeingZ2))];
      var offset := [s.offset.x0, s.offset.x1, s.offset.y0, s.offset.y1];
      done := WriteBlock(eeprom, EepromExtruderOffset, offset, c0, log0, done);
      done := WriteBlock(eeprom, EepromDockPosition, [s.dock.x, s.dock.y], c0, log0, done);
      done := WriteBlock(eeprom, EepromWipePosition, [s.wipe.x, s.wipe.y], c0, log0, done);
      // version, then the magic number that validates the data
      eeprom.WriteCell(EepromDualVersion, Word(StoreDualVersion));
      ApplySnoc(c0, done, Write(EepromDualVersion, Word(StoreDualVersion)));
      done := done + [Write(EepromDualVersion, Word(StoreDualVersion))];
      eeprom.WriteCell(EepromDualStart, Dword(EepromDualMagic));
      ApplySnoc(c0, done, Write(EepromDualStart, Dword(EepromDualMagic)));
      done := done + [Write(EepromDualStart, Dword(EepromDualMagic))];
      assert done == StoreWrites(s);
    }

    /**
     * eeprom_write_block of the floats `fs` at `addr`, one cell at a time,
     * after the writes `done` already issued on top of `c0`.
     */
    static method WriteBlock(eeprom: Eeprom, addr: int, fs: seq<real>, ghost c0: Cells, ghost log0: seq<Write>,
                             ghost done: seq<Write>) returns (ghost next: seq<Write>)
      requires eeprom.cells == Apply(c0, done) && eeprom.log == log0 + done
      modifies eeprom
      ensures next == done + BlockWrites(addr, fs)
      ensures eeprom.cells == Apply(c0, next) && eeprom.log == log0 + next
    {
      next := done;
      for i := 0 to |fs|
        invariant next == done + BlockWrites(addr, fs[..i])
        invariant eeprom.cells == Apply(c0, next) && eeprom.log == log0 + next
      {
        var w := Write(addr + 4 * i, Float(fs[i]));
        eeprom.WriteCell(w.addr, w.cell);
        ApplySnoc(c0, next, w);
        BlockWritesSnoc(addr, fs, i);
        ConcatAssoc(done, BlockWrites(addr, fs[..i]), [w]);
        ConcatAssoc(log0, next, [w]);
        next := next + [w];
      }
      assert fs[..|fs|] == fs;
    }

    /** Dual_RetrieveSettings: reads the EEPROM and never writes it. */
    method RetrieveSettings(eeprom: Eeprom, addHomeingZ: real, defaultOffset: Offsets)
      modifies this
      ensures Snapshot() == Retrieved(eeprom.cells, addHomeingZ, defaultOffset)
      ensures eeprom.cells == old(eeprom.cells) && eeprom.log == old(eeprom.log)
    {
      var magic := ReadDword(eeprom.cells, EepromDualStart);
      if magic == EepromDualMagic {
        var version := ReadWord(eeprom.cells, EepromDualVersion);
        addHomeingZ2 := ReadFloat(eeprom.cells, EepromAddHomeingZ2);
        offset := ReadOffsets(eeprom.cells);
        if version > 0 {
          dock := ReadVec2(eeprom.cells, EepromDockPosition);
          wipe := ReadVec2(eeprom.cells, EepromWipePosition);
        } else {
          dock := DefaultDock;
          wipe := DefaultWipe;
        }
      } else {
        ResetDefault(addHomeingZ, defaultOffset);
      }
    }

    /** Dual_StoreSettings without EEPROM_SETTINGS: nothing happens. */
    method StoreWithoutEeprom(eeprom: Eeprom)
      ensures Snapshot() == old(Snapshot())
      ensures eeprom.cells == old(eeprom.cells) && eeprom.log == old(eeprom.log)
    {
    }

    /** Dual_RetrieveSettings without EEPROM_SETTINGS: the same as Dual_ResetDefault. */
    method RetrieveWithoutEeprom(addHomeingZ: real, defaultOffset: Offsets)
      modifies this
      ensures Snapshot() == Defaults(addHomeingZ, defaultOffset)
    {
      ResetDefault(addHomeingZ, defaultOffset);
    }
  }
}
