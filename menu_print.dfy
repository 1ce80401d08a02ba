/**
 * The print menu's bookkeeping (UltiLCD2_menu_print.cpp): the `primed`
 * flags and the per-extruder retraction records that doStartPrint,
 * abortPrint, pause and resume set and clear, the end-of-print toolchange
 * retraction, the Z lift of a pause, the G-code header read for the file
 * details, and the trimming of file names for display.
 */
module MenuPrint {
  import opened Wrappers
  import opened Machine
  import opened MenuUtils
  import opened ConfigurationDual
  import opened MenuDual

  // ---------------------------------------------------------------------
  // End-of-print retraction

  /**
   * The length abortPrint retracts: the nominal toolchange retraction, less
   * the length an earlier print retraction already pulled back, but never
   * negative.
   */
  function EndOfPrintRetractLength(nominal: real, printRetracted: bool, recoverLength: real): real {
    if !printRetracted then nominal
    else if nominal - recoverLength < 0.0 then 0.0
    else nominal - recoverLength
  }

  /**
   * The end-of-print retraction never pulls back more than the nominal
   * length in total: it adds exactly the missing part when a print
   * retraction is outstanding, nothing when that one already covers the
   * nominal length, and the full length otherwise.
   */
  lemma EndOfPrintRetractTieBreak(nominal: real, printRetracted: bool, recoverLength: real)
    ensures var r := EndOfPrintRetractLength(nominal, printRetracted, recoverLength);
      && (!printRetracted ==> r == nominal)
      && (printRetracted ==> r >= 0.0 && r + recoverLength >= nominal)
      && (printRetracted && recoverLength <= nominal ==> r + recoverLength == nominal)
      && (printRetracted && recoverLength >= nominal ==> r == 0.0)
      && (nominal >= 0.0 && recoverLength >= 0.0 ==> 0.0 <= r <= nominal)
  {
  }

  // ---------------------------------------------------------------------
  // Pause

  /** The Z lift of lcd_menu_print_pause, for the current height z and Z_MAX_POS. */
  function PauseLift(z: real, zMax: real): int {
    if z < 70.0 then (if 70 - z.Floor > 20 then 70 - z.Floor else 20)
    else if z < zMax - 60.0 then 20
    else if z < zMax - 30.0 then 2
    else 0
  }

  /**
   * Below the gantry height of 70 mm the head is lifted at least 20 mm and
   * up to at least 70 mm; the lift never grows with the height; and on a
   * machine at least 90 mm tall it never drives past Z_MAX_POS.
   */
  lemma PauseLiftProperties(z: real, z2: real, zMax: real)
    ensures PauseLift(z, zMax) >= 0
    ensures z < 70.0 ==> PauseLift(z, zMax) >= 20 && z + PauseLift(z, zMax) as real >= 70.0
    ensures z <= z2 ==> PauseLift(z, zMax) >= PauseLift(z2, zMax)
    ensures zMax >= 90.0 && z <= zMax ==> z + PauseLift(z, zMax) as real <= zMax
  {
    assert z.Floor as real <= z < z.Floor as real + 1.0;
    assert z2.Floor as real <= z2 < z2.Floor as real + 1.0;
    if z <= z2 {
      assert z.Floor <= z2.Floor;
    }
  }

  /** The X position of the pause move: max(5, 5 + X offset) converted to uint16_t. */
  function PauseX(offsetX: real): (x: int)
    ensures x >= 5
    ensures offsetX <= 0.0 ==> x == 5
    ensures offsetX >= 0.0 ==> x as real <= 5.0 + offsetX < x as real + 1.0
  {
    if 5.0 > 5.0 + offsetX then 5 else (5.0 + offsetX).Floor
  }

  /** The Y position of the pause move: away from the wiper in dual mode. */
  function PauseY(dualState: bv8): int {
    if dualState & DualEnabled != 0 then 60 else 10
  }

  /** extruder_offset[X_AXIS][e] */
  function OffsetX(o: Offsets, e: Extruder): real {
    if e == 0 then o.x0 else o.x1
  }

  // ---------------------------------------------------------------------
  // File details: the header lines of a G-code file

  /** The nozzle diameter: the default 0.4, or what strtod reads from a header value. */
  datatype Diameter = DefaultDiameter | Strtod(text: string)

  datatype NozzleDetails = NozzleDetails(material: int, diameter: Diameter, materialType: string)

  /** LCD_DETAIL_CACHE_TIME and the per-extruder detail cells. */
  datatype Details = Details(time: int, first: NozzleDetails, second: NozzleDetails)

  const DefaultNozzle: NozzleDetails := NozzleDetails(0, DefaultDiameter, "")
  const DefaultDetails: Details := Details(0, DefaultNozzle, DefaultNozzle)

  function Of(d: Details, e: Extruder): NozzleDetails {
    if e == 0 then d.first else d.second
  }

  function WithNozzle(d: Details, e: Extruder, n: NozzleDetails): (r: Details)
    ensures Of(r, e) == n && Of(r, 1 - e) == Of(d, 1 - e) && r.time == d.time
  {
    if e == 0 then d.(first := n) else d.(second := n)
  }

  /** One read of fgets(buffer, 64): at most 63 characters. */
  type HeaderRead = s: string | |s| <= 63

  /** The number of lines the details callback reads. */
  const HeaderReads: nat := 16

  /** The n-th read of the file; past the end of the file a read leaves an empty buffer. */
  function ReadAt(lines: seq<HeaderRead>, n: nat): HeaderRead {
    if n < |lines| then lines[n] else ""
  }

  predicate IsControl(c: char) {
    SignedChar(c) < ' ' as int
  }

  /** The buffer after the loop that removes trailing characters below ' '. */
  function StripControl(s: string): (r: string)
    ensures |r| <= |s| && r == s[..|r|]
    ensures r == [] || !IsControl(r[|r| - 1])
    ensures forall i :: |r| <= i < |s| ==> IsControl(s[i])
  {
    if s == [] || !IsControl(s[|s| - 1]) then s else StripControl(s[..|s| - 1])
  }

  /** The header keys, in the order the callback tests them. */
  const TimeKey: string := ";TIME:"
  const MaterialKey: string := ";MATERIAL:"
  const DiameterKey: string := ";NOZZLE_DIAMETER:"
  const TypeKey: string := ";MTYPE:"
  const Material2Key: string := ";MATERIAL2:"
  const Diameter2Key: string := ";NOZZLE_DIAMETER2:"
  const Type2Key: string := ";MTYPE2:"

  const HeaderKeys: seq<string> := [TimeKey, MaterialKey, DiameterKey, TypeKey, Material2Key, Diameter2Key, Type2Key]

  predicate IsSpace(c: char) {
    c == ' ' || 9 <= c as int <= 13
  }

  predicate IsDigit(c: char) {
    '0' <= c <= '9'
  }

  function DigitValue(c: char): nat
    requires IsDigit(c)
  {
    c as int - '0' as int
  }

  function SkipSpaces(s: string): (r: string)
    ensures |r| <= |s| && r == s[|s| - |r|..]
    ensures r == [] || !IsSpace(r[0])
  {
    if s != [] && IsSpace(s[0]) then SkipSpaces(s[1..]) else s
  }

  /** The number of decimal digits s starts with. */
  function LeadingDigits(s: string): (n: nat)
    ensures n <= |s|
    ensures forall i :: 0 <= i < n ==> IsDigit(s[i])
    ensures n < |s| ==> !IsDigit(s[n])
  {
    if s != [] && IsDigit(s[0]) then 1 + LeadingDigits(s[1..]) else 0
  }

  /** The value of a string of decimal digits. */
  function DigitsValue(d: string): nat
    requires forall i :: 0 <= i < |d| ==> IsDigit(d[i])
  {
    if d == [] then 0 else DigitsValue(d[..|d| - 1]) * 10 + DigitValue(d[|d| - 1])
  }

  /** atol: leading white space, an optional sign, then decimal digits. */
  function Atol(s: string): int {
    var t := SkipSpaces(s);
    if t != [] && (t[0] == '-' || t[0] == '+') then
      var u := t[1..];
      var v: int := DigitsValue(u[..LeadingDigits(u)]);
      if t[0] == '-' then -v else v
    else
      DigitsValue(t[..LeadingDigits(t)])
  }

  /** The decimal notation of n, as a slicer writes it. */
  function Decimal(n: nat): (s: string)
    ensures |s| > 0 && forall i :: 0 <= i < |s| ==> IsDigit(s[i])
  {
    var last := ['0' + ((n % 10) as char)];
    if n < 10 then last else Decimal(n / 10) + last
  }

  lemma {:induction false} DecimalValue(n: nat)
    ensures DigitsValue(Decimal(n)) == n
  {
    var s := Decimal(n);
    if n >= 10 {
      DecimalValue(n / 10);
      assert s[..|s| - 1] == Decimal(n / 10);
    }
  }

  lemma {:induction false} LeadingDigitsOfDecimal(d: string, rest: string)
    requires forall i :: 0 <= i < |d| ==> IsDigit(d[i])
    requires rest == [] || !IsDigit(rest[0])
    ensures LeadingDigits(d + rest) == |d|
    decreases |d|
  {
    if d != [] {
      assert (d + rest)[1..] == d[1..] + rest;
      LeadingDigitsOfDecimal(d[1..], rest);
    }
  }

  /** atol reads back the decimal notation of n, whatever follows it. */
  lemma AtolDecimal(n: nat, rest: string)
    requires rest == [] || !IsDigit(rest[0])
    ensures Atol(Decimal(n) + rest) == n
  {
    var d := Decimal(n);
    var s := d + rest;
    assert s[0] == d[0];
    AtolOfDigits(s);
    LeadingDigitsOfDecimal(d, rest);
    assert s[..|d|] == d;
    DecimalValue(n);
  }

  /** A string that starts with a digit is read by atol as its leading digits. */
  lemma AtolOfDigits(s: string)
    requires s != [] && IsDigit(s[0])
    ensures Atol(s) == DigitsValue(s[..LeadingDigits(s)])
  {
    assert !IsSpace(s[0]);
    assert SkipSpaces(s) == s;
  }

  /** strncpy(dst, src, 8) followed by dst[7] = 0: at most seven characters are kept. */
  function MaterialTypeOf(s: string): (r: string)
    ensures |r| <= 7 && |r| <= |s| && r == s[..|r|]
    ensures |s| <= 7 ==> r == s
  {
    if |s| <= 7 then s else s[..7]
  }

  /** What one header line sets. */
  datatype HeaderField =
    | TimeField(seconds: int)
    | MaterialField(e: Extruder, amount: int)
    | DiameterField(e: Extruder, text: string)
    | TypeField(e: Extruder, name: string)
    | NoField

  /** The strncmp_P chain of the details callback. */
  function ParseLine(line: string): HeaderField {
    if TimeKey <= line then TimeField(Atol(line[|TimeKey|..]))
    else if MaterialKey <= line then MaterialField(0, Atol(line[|MaterialKey|..]))
    else if DiameterKey <= line then DiameterField(0, line[|DiameterKey|..])
    else if TypeKey <= line then TypeField(0, MaterialTypeOf(line[|TypeKey|..]))
    else if Material2Key <= line then MaterialField(1, Atol(line[|Material2Key|..]))
    else if Diameter2Key <= line then DiameterField(1, line[|Diameter2Key|..])
    else if Type2Key <= line then TypeField(1, MaterialTypeOf(line[|Type2Key|..]))
    else NoField
  }

  function ApplyField(d: Details, f: HeaderField): Details {
    match f
    case TimeField(t) => d.(time := t)
    case MaterialField(e, a) => WithNozzle(d, e, Of(d, e).(material := a))
    case DiameterField(e, text) => WithNozzle(d, e, Of(d, e).(diameter := Strtod(text)))
    case TypeField(e, name) => WithNozzle(d, e, Of(d, e).(materialType := name))
    case NoField => d
  }

  /** The field each of the first n reads sets. */
  function HeaderFields(lines: seq<HeaderRead>, n: nat): (fs: seq<HeaderField>)
    ensures |fs| == n
  {
    seq(n, (k: int) requires 0 <= k => ParseLine(StripControl(ReadAt(lines, k))))
  }

  /** The fields applied in order, a later one overriding an earlier one. */
  function ApplyFields(d: Details, fs: seq<HeaderField>): Details {
    if fs == [] then d else ApplyField(ApplyFields(d, fs[..|fs| - 1]), fs[|fs| - 1])
  }

  /** The details after the first n header reads. */
  function HeaderDetails(lines: seq<HeaderRead>, n: nat): Details {
    ApplyFields(DefaultDetails, HeaderFields(lines, n))
  }

  /** A key ends in its only ':'. */
  predicate ColonTerminated(key: string) {
    |key| > 0 && key[|key| - 1] == ':' && ':' !in key[..|key| - 1]
  }

  /** Two keys that each end in their only ':' and start the same line are the same length. */
  lemma ColonKeysAgree(p: string, q: string, line: string)
    requires ColonTerminated(p) && ColonTerminated(q)
    requires p <= line && q <= line
    ensures |p| == |q|
  {
  }

  /** Each header line starts with at most one key, so the order of the tests does not matter. */
  lemma HeaderKeysExclusive(line: string)
    ensures forall i, j :: 0 <= i < j < |HeaderKeys| && HeaderKeys[i] <= line ==> !(HeaderKeys[j] <= line)
  {
    forall i | 0 <= i < |HeaderKeys|
      ensures ColonTerminated(HeaderKeys[i])
    {
      var k := HeaderKeys[i];
      assert k[|k| - 1] == ':';
      assert forall c :: 0 <= c < |k| - 1 ==> k[c] != ':';
    }
    forall i, j | 0 <= i < j < |HeaderKeys| && HeaderKeys[i] <= line && HeaderKeys[j] <= line
      ensures false
    {
      ColonKeysAgree(HeaderKeys[i], HeaderKeys[j], line);
    }
  }

  /** No read among the first n starts with key. */
  predicate NoLineWith(lines: seq<HeaderRead>, n: nat, key: string) {
    forall k :: 0 <= k < n ==> !(key <= StripControl(ReadAt(lines, k)))
  }

  /** A line yields a time, or a material amount, only under its own key, and a type of at most seven characters. */
  lemma ParseLineKeys(line: string)
    ensures var f := ParseLine(line);
      && (f.TypeField? ==> |f.name| <= 7)
      && (f.TimeField? ==> TimeKey <= line)
      && (f.MaterialField? && f.e == 0 ==> MaterialKey <= line)
      && (f.MaterialField? && f.e == 1 ==> Material2Key <= line)
  {
  }

  /**
   * Applying fields keeps the material types within seven characters, and
   * leaves the time and each material amount alone unless a field sets it.
   */
  lemma {:induction false} ApplyFieldsBounds(d: Details, fs: seq<HeaderField>)
    requires |d.first.materialType| <= 7 && |d.second.materialType| <= 7
    requires forall i :: 0 <= i < |fs| && fs[i].TypeField? ==> |fs[i].name| <= 7
    ensures var r := ApplyFields(d, fs);
      && |r.first.materialType| <= 7 && |r.second.materialType| <= 7
      && ((forall i :: 0 <= i < |fs| ==> !fs[i].TimeField?) ==> r.time == d.time)
      && ((forall i :: 0 <= i < |fs| ==> !(fs[i].MaterialField? && fs[i].e == 0)) ==> r.first.material == d.first.material)
      && ((forall i :: 0 <= i < |fs| ==> !(fs[i].MaterialField? && fs[i].e == 1)) ==> r.second.material == d.second.material)
  {
    if fs != [] {
      var init := fs[..|fs| - 1];
      assert forall i :: 0 <= i < |init| ==> init[i] == fs[i];
      ApplyFieldsBounds(d, init);
    }
  }

  /**
   * After the header reads each material type holds at most seven
   * characters, and the time and the material amounts keep their default 0
   * unless a line starts with their key.
   */
  lemma HeaderDetailsBounds(lines: seq<HeaderRead>, n: nat)
    ensures var d := HeaderDetails(lines, n);
      && |d.first.materialType| <= 7 && |d.second.materialType| <= 7
      && (NoLineWith(lines, n, TimeKey) ==> d.time == 0)
      && (NoLineWith(lines, n, MaterialKey) ==> d.first.material == 0)
      && (NoLineWith(lines, n, Material2Key) ==> d.second.material == 0)
  {
    var fs := HeaderFields(lines, n);
    forall i | 0 <= i < n
      ensures var f := fs[i]; var line := StripControl(ReadAt(lines, i));
        && (f.TypeField? ==> |f.name| <= 7)
        && (f.TimeField? ==> TimeKey <= line)
        && (f.MaterialField? && f.e == 0 ==> MaterialKey <= line)
        && (f.MaterialField? && f.e == 1 ==> Material2Key <= line)
    {
      ParseLineKeys(StripControl(ReadAt(lines, i)));
    }
    ApplyFieldsBounds(DefaultDetails, fs);
  }

  /** A ";TIME:" line written by a slicer, with its line end, is read back exactly. */
  lemma TimeLineRoundTrip(seconds: nat)
    ensures ParseLine(StripControl(TimeKey + Decimal(seconds) + "\r\n")) == TimeField(seconds)
  {
    var body := TimeKey + Decimal(seconds);
    var s := body + "\r\n";
    assert s[..|s| - 1] == body + "\r";
    assert (body + "\r")[..|body|] == body;
    assert !IsControl(body[|body| - 1]);
    assert StripControl(s) == body;
    assert body[..|TimeKey|] == TimeKey;
    assert body[|TimeKey|..] == Decimal(seconds) + "";
    AtolDecimal(seconds, "");
  }

  /** The buffer length after removing trailing characters below ' '. */
  method StrippedLength(buffer: string) returns (len: nat)
    ensures len <= |buffer| && buffer[..len] == StripControl(buffer)
  {
    len := |buffer|;
    while len > 0 && IsControl(buffer[len - 1])
      invariant len <= |buffer|
      invariant StripControl(buffer[..len]) == StripControl(buffer)
    {
      assert buffer[..len][..len - 1] == buffer[..len - 1];
      len := len - 1;
    }
    assert buffer[..len] == StripControl(buffer[..len]);
  }

  /** The loop of the details callback: sixteen reads, each stripped and tested against the keys. */
  method ReadHeader(lines: seq<HeaderRead>) returns (d: Details)
    ensures d == HeaderDetails(lines, HeaderReads)
  {
    d := DefaultDetails;
    for n := 0 to HeaderReads
      invariant d == HeaderDetails(lines, n)
    {
      var buffer := ReadAt(lines, n);
      var len := StrippedLength(buffer);
      var line := buffer[..len];
      ghost var before := d;
      assert HeaderFields(lines, n + 1)[..n] == HeaderFields(lines, n);
      assert HeaderDetails(lines, n + 1) == ApplyField(before, ParseLine(line));
      if TimeKey <= line {
        d := d.(time := Atol(line[6..]));
      } else if MaterialKey <= line {
        d := d.(first := d.first.(material := Atol(line[10..])));
      } else if DiameterKey <= line {
        d := d.(first := d.first.(diameter := Strtod(line[17..])));
      } else if TypeKey <= line {
        d := d.(first := d.first.(materialType := MaterialTypeOf(line[7..])));
      } else if Material2Key <= line {
        d := d.(second := d.second.(material := Atol(line[11..])));
      } else if Diameter2Key <= line {
        d := d.(second := d.second.(diameter := Strtod(line[18..])));
      } else if Type2Key <= line {
        d := d.(second := d.second.(materialType := MaterialTypeOf(line[8..])));
      }
      assert d == ApplyField(before, ParseLine(line));
    }
  }

  // ---------------------------------------------------------------------
  // File names

  /** What card.getfilename yields for a directory entry. */
  datatype DirEntry = DirEntry(longName: string, shortName: string, isDir: bool)

  /** The long file name, or the 8.3 name when there is none. */
  function ShownName(entry: DirEntry): string {
    if entry.longName == [] then entry.shortName else entry.longName
  }

  /** strrchr(s, '.'): the position of the last dot. */
  function LastDot(s: string): (r: Option<nat>)
    ensures r.None? <==> '.' !in s
    ensures r.Some? ==> r.value < |s| && s[r.value] == '.' && '.' !in s[r.value + 1..]
  {
    if s == [] then None
    else if s[|s| - 1] == '.' then Some(|s| - 1)
    else
      var r := LastDot(s[..|s| - 1]);
      LastDotExtends(s[..|s| - 1], s[|s| - 1], r);
      assert s[..|s| - 1] + [s[|s| - 1]] == s;
      r
  }

  /** A last dot stays the last one when a character other than a dot is appended. */
  lemma LastDotExtends(p: string, c: char, r: Option<nat>)
    requires c != '.'
    requires r.None? <==> '.' !in p
    requires r.Some? ==> r.value < |p| && p[r.value] == '.' && '.' !in p[r.value + 1..]
    ensures r.None? <==> '.' !in p + [c]
    ensures r.Some? ==> r.value < |p + [c]| && (p + [c])[r.value] == '.' && '.' !in (p + [c])[r.value + 1..]
  {
    if r.Some? {
      assert (p + [c])[r.value + 1..] == p[r.value + 1..] + [c];
    }
  }

  /** strchr(s, '.'): the position of the first dot. */
  function FirstDot(s: string): (r: Option<nat>)
    ensures r.None? <==> '.' !in s
    ensures r.Some? ==> r.value < |s| && s[r.value] == '.' && '.' !in s[..r.value]
  {
    if s == [] then None
    else if s[0] == '.' then Some(0)
    else
      var r := FirstDot(s[1..]);
      if r.Some? then
        assert s[..r.value + 1] == [s[0]] + s[1..][..r.value];
        Some(r.value + 1)
      else r
  }

  /** The string cut at its last dot, if it has one. */
  function CutAtLastDot(s: string): (r: string)
    ensures |r| <= |s| && r == s[..|r|]
  {
    match LastDot(s)
    case None => s
    case Some(i) => s[..i]
  }

  /** The string cut at its first dot: no dot is left. */
  function CutAtFirstDot(s: string): (r: string)
    ensures |r| <= |s| && r == s[..|r|]
    ensures '.' !in r
    ensures '.' !in s ==> r == s
  {
    match FirstDot(s)
    case None => s
    case Some(i) => s[..i]
  }

  /** Cutting at the last dot removes exactly an extension that has no dot of its own. */
  lemma CutAtLastDotRemovesExtension(base: string, ext: string)
    requires '.' !in ext
    ensures CutAtLastDot(base + "." + ext) == base
  {
    var s := base + "." + ext;
    var r := LastDot(s);
    assert s[|base|] == '.';
    assert s[|base| + 1..] == ext;
    assert s[..|base|] == base;
  }

  /** The name the file list shows: files lose their extension, directories keep their name. */
  function ListName(entry: DirEntry): string {
    if entry.isDir then ShownName(entry) else CutAtLastDot(ShownName(entry))
  }

  /**
   * The title lcd_menu_print_select stores: the name cut to 20 characters,
   * then at its first dot.
   */
  function PrintTitle(entry: DirEntry): string {
    var n := ShownName(entry);
    CutAtFirstDot(if |n| <= 20 then n else n[..20])
  }

  /** The print title is a dot-free start of the file name, at most 20 characters long. */
  lemma PrintTitleShape(entry: DirEntry)
    ensures var t := PrintTitle(entry);
      && |t| <= 20 && '.' !in t && t <= ShownName(entry)
      && ('.' !in ShownName(entry) && |ShownName(entry)| <= 20 ==> t == ShownName(entry))
  {
  }

  /** A short dot-free base name with an extension gives the same title and list name. */
  lemma TitleAndListAgree(base: string, ext: string, shortName: string)
    requires '.' !in base && '.' !in ext && |base| <= 20 && base != []
    ensures var entry := DirEntry(base + "." + ext, shortName, false);
      PrintTitle(entry) == ListName(entry) == base
  {
    var s := base + "." + ext;
    CutAtLastDotRemovesExtension(base, ext);
    var t := if |s| <= 20 then s else s[..20];
    assert t[..|base|] == base;
    if |base| < |t| {
      assert t[|base|] == '.';
      var r := FirstDot(t);
      assert r.value <= |base|;
    } else {
      assert t == base;
    }
  }

  /** The name of the last cache entry that holds nr, or "" when none does. */
  function CachedName(ids: seq<UInt8>, names: seq<string>, nr: UInt8): string
    requires |ids| == |names|
  {
    if ids == [] then ""
    else if ids[|ids| - 1] == nr then names[|names| - 1]
    else CachedName(ids[..|ids| - 1], names[..|names| - 1], nr)
  }

  /**
   * The search through the cache finds the name of the last entry whose id
   * is nr (the loop copies every match, so the last one wins), and an empty
   * name when no entry has that id.
   */
  lemma {:induction false} CachedNameIsLast(ids: seq<UInt8>, names: seq<string>, nr: UInt8)
    requires |ids| == |names|
    ensures nr !in ids ==> CachedName(ids, names, nr) == ""
    ensures nr in ids ==> exists i :: 0 <= i < |ids| && ids[i] == nr && nr !in ids[i + 1..] && CachedName(ids, names, nr) == names[i]
  {
    if ids != [] {
      var n := |ids| - 1;
      if ids[n] == nr {
        assert ids[n + 1..] == [];
      } else {
        var ids', names' := ids[..n], names[..n];
        assert ids == ids' + [ids[n]];
        CachedNameIsLast(ids', names', nr);
        if nr in ids {
          assert nr in ids';
          var i :| 0 <= i < |ids'| && ids'[i] == nr && nr !in ids'[i + 1..] && CachedName(ids', names', nr) == names'[i];
          assert ids[i + 1..] == ids'[i + 1..] + [ids[n]];
          assert ids[i] == nr && names[i] == names'[i];
        }
      }
    }
  }

  /**
   * The LCD cache of the file list: LCD_CACHE_COUNT entries of id, name and
   * type, and the detail cells of one file.
   */
  class LcdCache {
    const count: nat
    var ids: seq<UInt8>
    var names: seq<string>
    var isDir: seq<bool>
    /** LCD_DETAIL_CACHE_ID */
    var detailId: UInt8
    var details: Details

    ghost predicate Valid()
      reads this
    {
      count > 0 && |ids| == count && |names| == count && |isDir| == count
    }

    /** lcd_clear_cache */
    constructor (count: nat)
      requires count > 0
      ensures Valid() && this.count == count
      ensures forall i :: 0 <= i < count ==> ids[i] == 255
      ensures detailId == 0 && details == DefaultDetails
    {
      this.count := count;
      ids := seq(count, _ => 255);
      names := seq(count, _ => "");
      isDir := seq(count, _ => false);
      detailId := 0;
      details := DefaultDetails;
    }

    /**
     * lcd_sd_menu_filename_callback for entry nr. Entry 0 is the way back;
     * a cached name is reused; otherwise `entry` is what card.getfilename
     * yields for nr - 1, stored in slot nr % count, and `readError` is the
     * card's error state afterwards, which invalidates that slot.
     */
    method FilenameCallback(nr: UInt8, atRoot: bool, entry: DirEntry, readError: bool) returns (name: string)
      requires Valid()
      modifies this
      ensures Valid() && detailId == old(detailId) && details == old(details)
      ensures nr == 0 ==> name == (if atRoot then "< RETURN" else "< BACK") && unchanged(this)
      ensures nr != 0 && CachedName(old(ids), old(names), nr) != "" ==>
        name == CachedName(old(ids), old(names), nr) && unchanged(this)
      ensures nr != 0 && CachedName(old(ids), old(names), nr) == "" ==>
        var slot := nr % count;
        && name == (if readError then "" else ListName(entry))
        && ids == old(ids)[slot := if readError then 255 else nr]
        && names == old(names)[slot := ListName(entry)]
        && isDir == old(isDir)[slot := entry.isDir]
    {
      if nr == 0 {
        name := if atRoot then "< RETURN" else "< BACK";
        return;
      }
      name := "";
      var idx := 0;
      while idx < count
        invariant idx <= count
        invariant name == CachedName(ids[..idx], names[..idx], nr)
      {
        assert ids[..idx + 1][..idx] == ids[..idx];
        assert names[..idx + 1][..idx] == names[..idx];
        if ids[idx] == nr {
          name := names[idx];
        }
        idx := idx + 1;
      }
      assert ids[..idx] == ids && names[..idx] == names;
      if name == "" {
        name := ListName(entry);
        var slot := nr % count;
        ids := ids[slot := nr];
        names := names[slot := name];
        isDir := isDir[slot := entry.isDir];
        if readError {
          ids := ids[slot := 255];
          name := "";
        }
      }
    }

    /** Some cache entry holds file nr as a file, not a folder. */
    predicate HoldsFile(nr: UInt8)
      reads this
      requires Valid()
    {
      exists i :: 0 <= i < count && ids[i] == nr && !isDir[i]
    }

    /**
     * lcd_sd_menu_details_callback for entry nr, without the drawing. When a
     * file entry is shown whose details are not cached, they are read anew:
     * `lookupFails` is an error of card.getfilename, `lines` what fgets
     * yields when the file opens, and `readFails` the card's error state
     * after the reads, which invalidates the details.
     */
    method DetailsCallback(nr: UInt8, lookupFails: bool, opens: bool, lines: seq<HeaderRead>, readFails: bool)
      requires Valid()
      modifies this
      ensures Valid() && ids == old(ids) && names == old(names) && isDir == old(isDir)
      ensures nr == 0 || !old(HoldsFile(nr)) || old(detailId) == nr || lookupFails ==>
        detailId == old(detailId) && details == old(details)
      ensures nr != 0 && old(HoldsFile(nr)) && old(detailId) != nr && !lookupFails ==>
        && details == (if opens then HeaderDetails(lines, HeaderReads) else DefaultDetails)
        && detailId == (if readFails then 255 else nr)
    {
      if nr == 0 {
        return;
      }
      var idx := 0;
      ghost var done := false;
      while idx < count
        invariant Valid() && idx <= count
        invariant ids == old(ids) && names == old(names) && isDir == old(isDir)
        invariant !done ==> detailId == old(detailId) && details == old(details)
        invariant done && old(detailId) != nr ==> !lookupFails
        invariant done && old(detailId) != nr ==> details == (if opens then HeaderDetails(lines, HeaderReads) else DefaultDetails)
        invariant done && old(detailId) != nr ==> detailId == (if readFails then 255 else nr)
        invariant done && old(detailId) == nr ==> detailId == old(detailId) && details == old(details)
        invariant done <==> exists i :: 0 <= i < idx && ids[i] == nr && !isDir[i]
      {
        if ids[idx] == nr && !isDir[idx] {
          if detailId != nr {
            if lookupFails {
              return;
            }
            detailId := nr;
            details := DefaultDetails;
            if opens {
              details := ReadHeader(lines);
            }
            if readFails {
              detailId := 255;
            }
          }
          done := true;
        }
        idx := idx + 1;
      }
    }
  }

  // ---------------------------------------------------------------------
  // Print start, abort, pause and resume

  /** The `primed` bitmask: EXTRUDER_PRIMED << e for each primed extruder, and ENDOFPRINT_RETRACT. */
  datatype Primed = Primed(extruders: set<Extruder>, endOfPrintRetract: bool)

  const NotPrimed: Primed := Primed({}, false)

  /** The wait at position k of the run is cut short by the user's abort. */
  predicate AbortsAt(aborts: seq<bool>, k: nat) {
    k < |aborts| && aborts[k]
  }

  /** No wait from position k on is aborted. */
  predicate NoAbortFrom(aborts: seq<bool>, k: nat) {
    forall j :: k <= j < |aborts| ==> !aborts[j]
  }

  /**
   * A wait for the planner or for a routine outside this model, during which
   * the user may abort the print; `aborts` holds the outcome of every wait in
   * order, and a wait past its end is not aborted.
   */
  method Wait(machine: Machine, aborts: seq<bool>, k: nat) returns (next: nat)
    modifies machine
    ensures next == k + 1
    ensures machine.printingState == (if AbortsAt(aborts, k) then PrintStateAbort else old(machine.printingState))
    ensures machine.activeExtruder == old(machine.activeExtruder) && machine.log == old(machine.log)
    ensures machine.addHomeingZ == old(machine.addHomeingZ) && machine.currentZ == old(machine.currentZ)
    ensures machine.knownX == old(machine.knownX) && machine.knownY == old(machine.knownY)
  {
    if AbortsAt(aborts, k) {
      machine.printingState := PrintStateAbort;
    }
    next := k + 1;
  }

  /**
   * The part of doStartPrint's loop that makes e the active extruder: a
   * toolchange when another one is active, otherwise a reheat and, with
   * wiping on and no abort, a wipe; each is followed by a wait.
   */
  method BringUpExtruder(machine: Machine, e: Extruder, wipeEnabled: bool, aborts: seq<bool>, k: nat)
    returns (next: nat)
    requires machine.printingState < PrintStateAbort
    modifies machine
    ensures machine.addHomeingZ == old(machine.addHomeingZ)
    ensures next >= k
    ensures machine.printingState == old(machine.printingState) || machine.printingState == PrintStateAbort
    ensures machine.activeExtruder == e
    ensures NoAbortFrom(aborts, k) ==> machine.printingState == old(machine.printingState)
  {
    if machine.activeExtruder != e {
      SwitchExtruder(machine, e, true);
      next := Wait(machine, aborts, k);
    } else {
      machine.log := machine.log + [MoveToHeatup, ReheatNozzle(e)];
      next := Wait(machine, aborts, k);
      if machine.printingState < PrintStateAbort && wipeEnabled {
        machine.log := machine.log + [ProcessWipe];
        next := Wait(machine, aborts, next);
      }
    }
  }

  /**
   * The commands of abortPrint in order: the toolchange back to the first
   * extruder when `switchBack`, the end-of-print retraction `retract`, the
   * move to the safe Y position, and homing, the head and bed apart when
   * `nearTop`.
   */
  function AbortMotion(switchBack: bool, knownX: bool, knownY: bool, retract: seq<Command>, nearTop: bool): seq<Command> {
    (if switchBack then HeadHoming(knownX, knownY) + [ChangeExtruder(0, true)] else [])
    + (retract + ([MoveToSafeY] + (if nearTop then [HomeHead, HomeBed] else [HomeAll])))
  }

  /** Per-extruder values, one for each of the EXTRUDERS nozzles. */
  type Flags = s: seq<bool> | |s| == Extruders witness [false, false]
  type Lengths = s: seq<real> | |s| == Extruders witness [0.0, 0.0]
  type Multipliers = s: seq<int> | |s| == Extruders witness [100, 100]
  /** volume_to_filament_length: a positive factor per extruder */
  type Factors = s: seq<real> | |s| == Extruders && forall e :: 0 <= e < |s| ==> s[e] > 0.0 witness [1.0, 1.0]

  /**
   * The print state: `primed`, the retraction flags and lengths of each
   * extruder, the toolchange retraction settings, the multipliers the end
   * of a print resets, and the card's printing and pause flags.
   */
  class PrintState {
    var primed: Primed
    /** EXTRUDER_RETRACTED(e) and retract_recover_length[e]: an outstanding print retraction */
    var printRetracted: Flags
    var retractRecoverLength: Lengths
    /** TOOLCHANGE_RETRACTED(e) and toolchange_recover_length[e] */
    var toolchangeRetracted: Flags
    var toolchangeRecoverLength: Lengths
    /** toolchange_retractlen[e] and toolchange_retractfeedrate[e]: settings no operation here changes */
    const toolchangeRetractLen: Lengths
    const toolchangeRetractFeedrate: Lengths
    var volumeToFilamentLength: Factors
    var extrudeMultiply: Multipliers
    var feedMultiply: int
    var fanSpeedPercent: int
    /** card.sdprinting, card.pause and pauseRequested */
    var sdprinting: bool
    var pause: bool
    var pauseRequested: bool

    /** The settings a priming run leaves alone. */
    function Settings(): (seq<real>, seq<int>, int, int, bool, bool)
      reads this
    {
      (volumeToFilamentLength, extrudeMultiply, feedMultiply, fanSpeedPercent, pause, pauseRequested)
    }

    constructor (retractLen: Lengths, retractFeedrate: Lengths)
      ensures primed == NotPrimed
      ensures toolchangeRetractLen == retractLen && toolchangeRetractFeedrate == retractFeedrate
      ensures forall e :: 0 <= e < Extruders ==> !printRetracted[e] && !toolchangeRetracted[e]
      ensures !sdprinting && !pause && !pauseRequested
    {
      primed := NotPrimed;
      printRetracted := [false, false];
      retractRecoverLength := [0.0, 0.0];
      toolchangeRetracted := [false, false];
      toolchangeRecoverLength := [0.0, 0.0];
      toolchangeRetractLen := retractLen;
      toolchangeRetractFeedrate := retractFeedrate;
      volumeToFilamentLength := [1.0, 1.0];
      extrudeMultiply := [100, 100];
      feedMultiply := 100;
      fanSpeedPercent := 100;
      sdprinting, pause, pauseRequested := false, false, false;
    }

    /** The end-of-print retraction of extruder a is due: it is primed, and not toolchange-retracted already. */
    predicate RetractDue(a: Extruder)
      reads this
    {
      primed.endOfPrintRetract && a in primed.extruders && !toolchangeRetracted[a]
    }

    /** The length of the end-of-print retraction of extruder a, by its volume-to-length factor. */
    function AbortRetractLength(a: Extruder): real
      reads this
    {
      EndOfPrintRetractLength(toolchangeRetractLen[a] / volumeToFilamentLength[a], printRetracted[a], retractRecoverLength[a])
    }

    /**
     * abortPrint's end-of-print retraction of the active extruder a: when a
     * was primed and is not already toolchange-retracted, it is retracted by
     * AbortRetractLength(a) and marked as toolchange-retracted by that
     * length; `retract` is the move, or nothing.
     */
    method EndOfPrintRetract(a: Extruder) returns (retract: seq<Command>)
      modifies this
      ensures Settings() == old(Settings()) && sdprinting == old(sdprinting) && primed == old(primed)
      ensures printRetracted == old(printRetracted) && retractRecoverLength == old(retractRecoverLength)
      ensures old(RetractDue(a)) ==>
        && toolchangeRetracted == old(toolchangeRetracted)[a := true]
        && toolchangeRecoverLength == old(toolchangeRecoverLength)[a := old(AbortRetractLength(a))]
        && retract == [SetEPositionAndMove(old(AbortRetractLength(a)), toolchangeRetractFeedrate[a] / 60.0)]
      ensures !old(RetractDue(a)) ==>
        && toolchangeRetracted == old(toolchangeRetracted)
        && toolchangeRecoverLength == old(toolchangeRecoverLength)
        && retract == []
    {
      retract := [];
      if primed.endOfPrintRetract && a in primed.extruders {
        if !toolchangeRetracted[a] {
          var retractLen := toolchangeRetractLen[a] / volumeToFilamentLength[a];
          if printRetracted[a] {
            retractLen := retractLen - retractRecoverLength[a];
            if retractLen < 0.0 {
              retractLen := 0.0;
            }
          }
          toolchangeRetracted := toolchangeRetracted[a := true];
          toolchangeRecoverLength := toolchangeRecoverLength[a := retractLen];
          retract := [SetEPositionAndMove(retractLen, toolchangeRetractFeedrate[a] / 60.0)];
        }
      }
    }

    /**
     * The motion of abortPrint: return to the first extruder unless this is
     * a quick stop, make the end-of-print retraction of the extruder then
     * active, forget the priming, and home. zMax is Z_MAX_POS.
     */
    method AbortMoves(quickStop: bool, machine: Machine, zMax: real)
      modifies this, machine
      ensures machine.addHomeingZ == old(machine.addHomeingZ)
      ensures Settings() == old(Settings()) && sdprinting == old(sdprinting) && primed == NotPrimed
      ensures printRetracted == old(printRetracted) && retractRecoverLength == old(retractRecoverLength)
      ensures machine.activeExtruder == (if quickStop then old(machine.activeExtruder) else 0)
      ensures machine.printingState == old(machine.printingState)
      ensures var a: Extruder := if quickStop then old(machine.activeExtruder) else 0;
        var due := old(RetractDue(a));
        && (due ==> toolchangeRetracted == old(toolchangeRetracted)[a := true]
                    && toolchangeRecoverLength == old(toolchangeRecoverLength)[a := old(AbortRetractLength(a))])
        && (!due ==> toolchangeRetracted == old(toolchangeRetracted)
                     && toolchangeRecoverLength == old(toolchangeRecoverLength))
      ensures var a: Extruder := if quickStop then old(machine.activeExtruder) else 0;
        var due := old(RetractDue(a));
        machine.log == old(machine.log) + AbortMotion(
          !quickStop && old(machine.activeExtruder) != 0, old(machine.knownX), old(machine.knownY),
          if due then [SetEPositionAndMove(old(AbortRetractLength(a)), toolchangeRetractFeedrate[a] / 60.0)] else [],
          old(machine.currentZ) > zMax - 30.0)
    {
      ghost var switchBack := !quickStop && machine.activeExtruder != 0;
      ghost var knownX, knownY := machine.knownX, machine.knownY;
      ghost var start := machine.log;
      if !quickStop && machine.activeExtruder != 0 {
        SwitchExtruder(machine, 0, true);
      }
      ghost var switchCommands := if switchBack then HeadHoming(knownX, knownY) + [ChangeExtruder(0, true)] else [];
      assert machine.log == start + switchCommands;
      var retract := EndOfPrintRetract(machine.activeExtruder);
      primed := NotPrimed;
      var homing := if machine.currentZ > zMax - 30.0 then [HomeHead, HomeBed] else [HomeAll];
      machine.log := machine.log + (retract + ([MoveToSafeY] + homing));
      ConcatAssoc(start, switchCommands, retract + ([MoveToSafeY] + homing));
    }

    /**
     * abortPrint: stop printing, make the moves of AbortMoves (with the
     * end-of-print retraction of the extruder then active), and reset the
     * multipliers, the fan, the volumetric factors and the pause flags.
     */
    method AbortPrint(quickStop: bool, machine: Machine, zMax: real)
      modifies this, machine
      ensures machine.addHomeingZ == old(machine.addHomeingZ)
      ensures primed == NotPrimed
      ensures feedMultiply == 100 && fanSpeedPercent == 100
      ensures forall e :: 0 <= e < Extruders ==> extrudeMultiply[e] == 100 && volumeToFilamentLength[e] == 1.0
      ensures !sdprinting && !pause && !pauseRequested && machine.printingState == PrintStateNormal
      ensures machine.activeExtruder == (if quickStop then old(machine.activeExtruder) else 0)
      ensures printRetracted == old(printRetracted) && retractRecoverLength == old(retractRecoverLength)
      ensures var a: Extruder := if quickStop then old(machine.activeExtruder) else 0;
        var due := old(RetractDue(a));
        && (due ==> toolchangeRetracted == old(toolchangeRetracted)[a := true]
                    && toolchangeRecoverLength == old(toolchangeRecoverLength)[a := old(AbortRetractLength(a))])
        && (!due ==> toolchangeRetracted == old(toolchangeRetracted)
                     && toolchangeRecoverLength == old(toolchangeRecoverLength))
      ensures var a: Extruder := if quickStop then old(machine.activeExtruder) else 0;
        var due := old(RetractDue(a));
        machine.log == old(machine.log) + AbortMotion(
          !quickStop && old(machine.activeExtruder) != 0, old(machine.knownX), old(machine.knownY),
          if due then [SetEPositionAndMove(old(AbortRetractLength(a)), toolchangeRetractFeedrate[a] / 60.0)] else [],
          old(machine.currentZ) > zMax - 30.0)
    {
      sdprinting := false;
      feedMultiply := 100;
      extrudeMultiply := [100, 100];
      AbortMoves(quickStop, machine, zMax);
      FinishAbort(machine);
    }

    /** The end of abortPrint: leave any pause, and reset the fan and the volumetric factors. */
    method FinishAbort(machine: Machine)
      modifies this, machine
      ensures machine.addHomeingZ == old(machine.addHomeingZ) && machine.currentZ == old(machine.currentZ) && machine.knownX == old(machine.knownX) && machine.knownY == old(machine.knownY)
      ensures !pause && !pauseRequested && machine.printingState == PrintStateNormal
      ensures fanSpeedPercent == 100 && forall e :: 0 <= e < Extruders ==> volumeToFilamentLength[e] == 1.0
      ensures primed == old(primed) && sdprinting == old(sdprinting) && feedMultiply == old(feedMultiply)
      ensures extrudeMultiply == old(extrudeMultiply) && machine.activeExtruder == old(machine.activeExtruder)
      ensures printRetracted == old(printRetracted) && retractRecoverLength == old(retractRecoverLength)
      ensures toolchangeRetracted == old(toolchangeRetracted) && toolchangeRecoverLength == old(toolchangeRecoverLength)
      ensures machine.log == old(machine.log)
    {
      pause := false;
      pauseRequested := false;
      machine.printingState := PrintStateNormal;
      fanSpeedPercent := 100;
      volumeToFilamentLength := [1.0, 1.0];
    }

    /**
     * The print retractions doStartPrint leaves: only a primed extruder can
     * be print-retracted, only when wiping is off (by the G10 that follows
     * its priming), and then by the recover length `g10Length` of the G10
     * handler; any other extruder has nothing to recover.
     */
    predicate RetractionsAfterPriming(wipeEnabled: bool, g10Length: Lengths)
      reads this
    {
      forall x :: 0 <= x < Extruders ==>
        if printRetracted[x] then !wipeEnabled && x in primed.extruders && retractRecoverLength[x] == g10Length[x]
        else retractRecoverLength[x] == 0.0
    }

    /**
     * One pass of doStartPrint's loop for an extruder e that the file uses:
     * move to the priming height before the first extruder, make e active
     * (heating and wiping it when it already is), and when wiping is off
     * prime it and retract it again with G10; then mark it primed. `stop` is
     * the early return on an abort. `g10Length` is the recover length the
     * G10 handler records for each extruder.
     */
    method PrimeExtruder(machine: Machine, e: Extruder, wipeEnabled: bool, g10Length: Lengths, aborts: seq<bool>, k: nat)
      returns (stop: bool, next: nat)
      requires machine.printingState < PrintStateAbort
      requires e !in primed.extruders && RetractionsAfterPriming(wipeEnabled, g10Length)
      modifies this, machine
      ensures machine.addHomeingZ == old(machine.addHomeingZ)
      ensures Settings() == old(Settings()) && sdprinting == old(sdprinting)
      ensures RetractionsAfterPriming(wipeEnabled, g10Length)
      ensures forall x :: 0 <= x < Extruders && x != e ==>
        printRetracted[x] == old(printRetracted[x]) && retractRecoverLength[x] == old(retractRecoverLength[x])
      ensures next >= k
      ensures machine.printingState == old(machine.printingState) || machine.printingState == PrintStateAbort
      ensures stop ==> (machine.printingState == PrintStateAbort && primed == old(primed)
        && toolchangeRetracted == old(toolchangeRetracted) && toolchangeRecoverLength == old(toolchangeRecoverLength)
        && printRetracted == old(printRetracted) && retractRecoverLength == old(retractRecoverLength))
      ensures !stop ==> primed == Primed(old(primed.extruders) + {e}, true)
      ensures forall x :: 0 <= x < Extruders && x != e ==>
        toolchangeRetracted[x] == old(toolchangeRetracted[x]) && toolchangeRecoverLength[x] == old(toolchangeRecoverLength[x])
      ensures NoAbortFrom(aborts, k) ==>
        && !stop && machine.printingState == old(machine.printingState) && machine.activeExtruder == e
        && (!wipeEnabled ==> !toolchangeRetracted[e] && toolchangeRecoverLength[e] == 0.0
                             && printRetracted[e] && retractRecoverLength[e] == g10Length[e])
        && (wipeEnabled ==> !printRetracted[e])
    {
      next := k;
      if primed == NotPrimed {
        machine.log := machine.log + [MoveToPrimingHeight];
        next := Wait(machine, aborts, next);
      }
      if machine.printingState == PrintStateAbort {
        return true, next;
      }
      next := BringUpExtruder(machine, e, wipeEnabled, aborts, next);
      if !wipeEnabled && machine.printingState < PrintStateAbort {
        machine.log := machine.log + [PrimeNozzle(e)];
        ForgetRetraction(e);
        // retract (G10, on the active extruder e)
        machine.log := machine.log + [Gcode("G10")];
        printRetracted := printRetracted[e := true];
        retractRecoverLength := retractRecoverLength[e := g10Length[e]];
      }
      primed := Primed(primed.extruders + {e}, true);
      stop := false;
    }

    /** After priming extruder e, neither of its retractions is outstanding. */
    method ForgetRetraction(e: Extruder)
      modifies this
      ensures Settings() == old(Settings()) && sdprinting == old(sdprinting) && primed == old(primed)
      ensures printRetracted == old(printRetracted)[e := false]
      ensures retractRecoverLength == old(retractRecoverLength)[e := 0.0]
      ensures toolchangeRetracted == old(toolchangeRetracted)[e := false]
      ensures toolchangeRecoverLength == old(toolchangeRecoverLength)[e := 0.0]
    {
      toolchangeRetracted := toolchangeRetracted[e := false];
      printRetracted := printRetracted[e := false];
      retractRecoverLength := retractRecoverLength[e := 0.0];
      toolchangeRecoverLength := toolchangeRecoverLength[e := 0.0];
    }

    /** The start of doStartPrint: no print retraction of any extruder is outstanding. */
    method ForgetPrintRetractions()
      modifies this
      ensures Settings() == old(Settings()) && sdprinting == old(sdprinting) && primed == old(primed)
      ensures forall x :: 0 <= x < Extruders ==> !printRetracted[x] && retractRecoverLength[x] == 0.0
      ensures toolchangeRetracted == old(toolchangeRetracted)
      ensures toolchangeRecoverLength == old(toolchangeRecoverLength)
    {
      var e := 0;
      while e < Extruders
        invariant 0 <= e <= Extruders && Settings() == old(Settings()) && sdprinting == old(sdprinting) && primed == old(primed)
        invariant forall x :: 0 <= x < e ==> !printRetracted[x] && retractRecoverLength[x] == 0.0
        invariant toolchangeRetracted == old(toolchangeRetracted)
        invariant toolchangeRecoverLength == old(toolchangeRecoverLength)
      {
        printRetracted := printRetracted[e := false];
        retractRecoverLength := retractRecoverLength[e := 0.0];
        e := e + 1;
      }
    }

    /**
     * doStartPrint's loop: prime the extruders the file uses (`details`,
     * the file's header), from the highest index down, until the user
     * aborts; `stopped` is its early return. `aborts` holds the outcome of
     * each wait of the run.
     */
    method PrimeExtruders(machine: Machine, details: Details, wipeEnabled: bool, g10Length: Lengths, aborts: seq<bool>)
      returns (stopped: bool)
      requires primed == NotPrimed
      requires forall x :: 0 <= x < Extruders ==> !printRetracted[x] && retractRecoverLength[x] == 0.0
      modifies this, machine
      ensures machine.addHomeingZ == old(machine.addHomeingZ)
      ensures Settings() == old(Settings()) && sdprinting == old(sdprinting)
      ensures RetractionsAfterPriming(wipeEnabled, g10Length)
      ensures forall x :: x in primed.extruders ==> Of(details, x).material != 0
      ensures primed.endOfPrintRetract <==> primed.extruders != {}
      ensures forall x :: 0 <= x < Extruders && x !in primed.extruders ==>
        toolchangeRetracted[x] == old(toolchangeRetracted[x]) && toolchangeRecoverLength[x] == old(toolchangeRecoverLength[x])
      ensures old(machine.printingState) < PrintStateAbort && NoAbortFrom(aborts, 0) ==>
        && !stopped
        && (forall x: Extruder :: x in primed.extruders <==> Of(details, x).material != 0)
        && (primed.extruders == {} ==> machine.activeExtruder == old(machine.activeExtruder))
        && (primed.extruders != {} ==>
              machine.activeExtruder in primed.extruders && forall x :: x in primed.extruders ==> machine.activeExtruder <= x)
        && (!wipeEnabled ==> forall x :: x in primed.extruders ==>
              !toolchangeRetracted[x] && toolchangeRecoverLength[x] == 0.0
              && printRetracted[x] && retractRecoverLength[x] == g10Length[x])
    {
      ghost var noAbort := old(machine.printingState) < PrintStateAbort && NoAbortFrom(aborts, 0);
      var k := 0;
      var e := Extruders - 1;
      stopped := false;
      while e >= 0 && machine.printingState < PrintStateAbort && !stopped
        invariant -1 <= e < Extruders && (stopped ==> !noAbort)
        invariant Settings() == old(Settings()) && sdprinting == old(sdprinting)
        invariant machine.addHomeingZ == old(machine.addHomeingZ)
        invariant RetractionsAfterPriming(wipeEnabled, g10Length)
        invariant forall x :: x in primed.extruders ==> e < x && Of(details, x).material != 0
        invariant primed.endOfPrintRetract <==> primed.extruders != {}
        invariant forall x :: 0 <= x < Extruders && x !in primed.extruders ==>
          toolchangeRetracted[x] == old(toolchangeRetracted[x]) && toolchangeRecoverLength[x] == old(toolchangeRecoverLength[x])
        invariant noAbort ==> machine.printingState == old(machine.printingState) && NoAbortFrom(aborts, k)
        invariant noAbort ==> forall x: Extruder :: e < x ==> (x in primed.extruders <==> Of(details, x).material != 0)
        invariant noAbort && primed.extruders == {} ==> machine.activeExtruder == old(machine.activeExtruder)
        invariant noAbort && primed.extruders != {} ==>
          machine.activeExtruder in primed.extruders && forall x :: x in primed.extruders ==> machine.activeExtruder <= x
        invariant noAbort && !wipeEnabled ==> forall x :: x in primed.extruders ==>
          !toolchangeRetracted[x] && toolchangeRecoverLength[x] == 0.0
          && printRetracted[x] && retractRecoverLength[x] == g10Length[x]
        decreases e + 1
      {
        if Of(details, e).material != 0 {
          stopped, k := PrimeExtruder(machine, e, wipeEnabled, g10Length, aborts, k);
        }
        e := e - 1;
      }
    }

    /**
     * doStartPrint: forget earlier print retractions, prime the extruders
     * the file uses, set the extruder position to 0 when the active one was
     * primed, and start the SD print (card.startFileprint) unless the user
     * aborted on the way. With wiping off, each primed extruder is left
     * retracted by the G10 that follows its priming.
     */
    method DoStartPrint(machine: Machine, details: Details, wipeEnabled: bool, g10Length: Lengths, aborts: seq<bool>)
      returns (started: bool)
      modifies this, machine
      ensures machine.addHomeingZ == old(machine.addHomeingZ)
      ensures Settings() == old(Settings())
      ensures sdprinting == (old(sdprinting) || started)
      ensures RetractionsAfterPriming(wipeEnabled, g10Length)
      ensures wipeEnabled ==> forall e :: 0 <= e < Extruders ==> !printRetracted[e] && retractRecoverLength[e] == 0.0
      ensures forall e :: e in primed.extruders ==> Of(details, e).material != 0
      ensures primed.endOfPrintRetract <==> primed.extruders != {}
      ensures forall e :: 0 <= e < Extruders && e !in primed.extruders ==>
        toolchangeRetracted[e] == old(toolchangeRetracted[e]) && toolchangeRecoverLength[e] == old(toolchangeRecoverLength[e])
      ensures old(machine.printingState) < PrintStateAbort && NoAbortFrom(aborts, 0) ==>
        && started
        && (forall e: Extruder :: e in primed.extruders <==> Of(details, e).material != 0)
        && (Of(details, 0).material != 0 ==> machine.activeExtruder == 0)
        && (Of(details, 0).material == 0 && Of(details, 1).material != 0 ==> machine.activeExtruder == 1)
        && (primed.extruders == {} ==> machine.activeExtruder == old(machine.activeExtruder))
        && (!wipeEnabled ==> forall e :: e in primed.extruders ==>
              !toolchangeRetracted[e] && toolchangeRecoverLength[e] == 0.0
              && printRetracted[e] && retractRecoverLength[e] == g10Length[e])
        && (primed.extruders != {} ==> |machine.log| > 0 && machine.log[|machine.log| - 1] == Gcode("G1 E0"))
    {
      primed := NotPrimed;
      ForgetPrintRetractions();
      var stopped := PrimeExtruders(machine, details, wipeEnabled, g10Length, aborts);
      if !stopped {
        if machine.activeExtruder in primed.extruders {
          machine.log := machine.log + [Gcode("G1 E0")];
        }
        sdprinting := true;
      }
      started := !stopped;
    }

    /**
     * lcd_menu_print_pause: while printing and not paused, pause when the
     * planner has moves and the command queue has room (`queueReady`):
     * lift and park the head with M601 and cancel the end-of-print
     * retraction; otherwise remember the request.
     */
    method Pause(machine: Machine, settings: DualSettings, dualState: bv8, queueReady: bool, zMax: real)
      modifies this, machine
      ensures machine.addHomeingZ == old(machine.addHomeingZ) && machine.knownX == old(machine.knownX) && machine.knownY == old(machine.knownY)
      ensures printRetracted == old(printRetracted) && toolchangeRetracted == old(toolchangeRetracted)
      ensures retractRecoverLength == old(retractRecoverLength) && toolchangeRecoverLength == old(toolchangeRecoverLength)
      ensures volumeToFilamentLength == old(volumeToFilamentLength) && extrudeMultiply == old(extrudeMultiply)
      ensures feedMultiply == old(feedMultiply) && fanSpeedPercent == old(fanSpeedPercent)
      ensures sdprinting == old(sdprinting) && primed.extruders == old(primed.extruders)
      ensures !(old(sdprinting) && !old(pause)) ==>
        primed == old(primed) && pause == old(pause) && pauseRequested == old(pauseRequested)
        && machine.log == old(machine.log)
      ensures old(sdprinting) && !old(pause) && !queueReady ==>
        primed == old(primed) && !pause && pauseRequested && machine.log == old(machine.log)
      ensures old(sdprinting) && !old(pause) && queueReady ==>
        var a := machine.activeExtruder;
        && pause && !pauseRequested && !primed.endOfPrintRetract
        && machine.log == old(machine.log) + [PauseMove(PauseX(OffsetX(settings.offset, a)), PauseY(dualState),
                                                        PauseLift(machine.currentZ, zMax), toolchangeRetractLen[a])]
      ensures machine.activeExtruder == old(machine.activeExtruder) && machine.currentZ == old(machine.currentZ)
      ensures machine.printingState == old(machine.printingState)
    {
      if sdprinting && !pause {
        if queueReady {
          pauseRequested := false;
          pause := true;
          var zdiff := 0;
          if machine.currentZ < 70.0 {
            zdiff := 70 - machine.currentZ.Floor;
            if zdiff < 20 {
              zdiff := 20;
            }
          } else if machine.currentZ < zMax - 60.0 {
            zdiff := 20;
          } else if machine.currentZ < zMax - 30.0 {
            zdiff := 2;
          }
          var a := machine.activeExtruder;
          var x := PauseX(OffsetX(settings.offset, a));
          var y := if dualState & DualEnabled != 0 then 60 else 10;
          machine.log := machine.log + [PauseMove(x, y, zdiff, toolchangeRetractLen[a])];
          primed := primed.(endOfPrintRetract := false);
        } else {
          pauseRequested := true;
        }
      }
    }

    /**
     * The resume choice of lcd_menu_print_printing, taken when the print is
     * paused, the button is pressed on the first item and the planner is
     * empty (`resumeChosen`): the pause ends, and the end-of-print
     * retraction is due again while the card is printing.
     */
    method Resume(resumeChosen: bool)
      modifies this
      ensures primed.extruders == old(primed.extruders)
      ensures old(pause) && resumeChosen ==>
        !pause && primed.endOfPrintRetract == (old(primed.endOfPrintRetract) || sdprinting)
      ensures !(old(pause) && resumeChosen) ==> pause == old(pause) && primed == old(primed)
      ensures sdprinting == old(sdprinting) && pauseRequested == old(pauseRequested)
      ensures printRetracted == old(printRetracted) && toolchangeRetracted == old(toolchangeRetracted)
      ensures retractRecoverLength == old(retractRecoverLength) && toolchangeRecoverLength == old(toolchangeRecoverLength)
      ensures volumeToFilamentLength == old(volumeToFilamentLength) && extrudeMultiply == old(extrudeMultiply)
      ensures feedMultiply == old(feedMultiply) && fanSpeedPercent == old(fanSpeedPercent)
    {
      if pause && resumeChosen {
        pause := false;
        if sdprinting {
          primed := primed.(endOfPrintRetract := true);
        }
      }
    }
  }
}
