/**
 * The toolchange script store (CommandBuffer in commandbuffer.cpp): the
 * optional files T0, T1 and wipe of the card's config directory are read
 * into lists of trimmed, non-blank command lines, replayed in order, and
 * released. A list is kept as a sequence of its lines; the null pointer is
 * None, and a script that is present always holds at least one line.
 */
module CommandBuffer {
  import opened Wrappers
  import opened Machine

  /** MAX_CMD_SIZE: the size of readScript's line buffer. */
  const MaxCmdSize: nat := 96

  /** readScript calls fgets(buffer, sizeof(buffer)-1), which stores at most num-1 characters. */
  const MaxChunk: nat := MaxCmdSize - 2

  /** What one call of the card's fgets yields; an empty chunk stands for a return value <= 0. */
  type Chunk = s: string | |s| <= MaxChunk

  /** The trimming test of readScript, `buffer[len-1] <= ' '` on a signed char. */
  predicate IsBlank(c: char) {
    SignedChar(c) <= ' ' as int
  }

  /** A command line as readScript stores it. */
  predicate IsCommandLine(line: string) {
    0 < |line| < MaxCmdSize && !IsBlank(line[|line| - 1])
  }

  /** A stored script: the null pointer, or a non-empty list of command lines. */
  predicate IsScript(script: Option<seq<string>>) {
    script.Some? ==>
      |script.value| > 0 && forall i :: 0 <= i < |script.value| ==> IsCommandLine(script.value[i])
  }

  /** The lines of a script; the null pointer has none. */
  function Lines(script: Option<seq<string>>): seq<string> {
    if script.Some? then script.value else []
  }

  /** The buffer after readScript's loop that removes trailing blanks. */
  function TrimTrailing(s: string): (r: string)
    ensures |r| <= |s| && r == s[..|r|]
    ensures r == [] || !IsBlank(r[|r| - 1])
    ensures forall i :: |r| <= i < |s| ==> IsBlank(s[i])
  {
    if s == [] || !IsBlank(s[|s| - 1]) then s else TrimTrailing(s[..|s| - 1])
  }

  /** What one chunk adds to the script: its trimmed text, unless nothing is left. */
  function LineOf(chunk: Chunk): seq<string> {
    var t := TrimTrailing(chunk);
    if t == [] then [] else [t]
  }

  /** The lines kept from chunks that were all read, in file order. */
  function Kept(chunks: seq<Chunk>): (lines: seq<string>)
    ensures |lines| <= |chunks|
    ensures forall i :: 0 <= i < |lines| ==> IsCommandLine(lines[i])
  {
    if chunks == [] then [] else Kept(chunks[..|chunks| - 1]) + LineOf(chunks[|chunks| - 1])
  }

  /** How many chunks readScript consumes: it stops at the end of the file or at a read of length <= 0. */
  function ReadCount(chunks: seq<Chunk>): (n: nat)
    ensures n <= |chunks|
    ensures forall j :: 0 <= j < n ==> |chunks[j]| > 0
    ensures n < |chunks| ==> |chunks[n]| == 0
  {
    if chunks == [] || |chunks[0]| == 0 then 0 else 1 + ReadCount(chunks[1..])
  }

  /** The script readScript builds from an open file: null when no line survives. */
  function ScriptOf(chunks: seq<Chunk>): (script: Option<seq<string>>)
    ensures IsScript(script)
  {
    var lines := Kept(chunks[..ReadCount(chunks)]);
    if lines == [] then None else Some(lines)
  }

  /** The script read for a file name: null when the file cannot be opened. */
  function FileScript(files: map<string, seq<Chunk>>, name: string): (script: Option<seq<string>>)
    ensures IsScript(script)
    ensures name !in files ==> script == None
  {
    if name in files then ScriptOf(files[name]) else None
  }

  function Present(script: Option<seq<string>>): nat {
    if script.Some? then 1 else 0
  }

  /** Reading two parts of a file one after the other keeps both parts' lines, in order. */
  lemma {:induction false} KeptAppend(a: seq<Chunk>, b: seq<Chunk>)
    ensures Kept(a + b) == Kept(a) + Kept(b)
    decreases |b|
  {
    if b == [] {
      assert a + b == a;
    } else {
      var b' := b[..|b| - 1];
      assert (a + b)[..|a + b| - 1] == a + b';
      KeptAppend(a, b');
    }
  }

  /** A chunk that is blank after trimming adds nothing, wherever it stands in the file. */
  lemma BlankLineDropped(a: seq<Chunk>, c: Chunk, b: seq<Chunk>)
    requires TrimTrailing(c) == []
    ensures Kept(a + [c] + b) == Kept(a + b)
  {
    assert (a + [c])[..|a|] == a;
    assert Kept(a + [c]) == Kept(a) + LineOf(c) == Kept(a);
    KeptAppend(a + [c], b);
    KeptAppend(a, b);
  }

  /** A non-blank chunk is appended as the next line after the lines before it. */
  lemma NonBlankLineAppended(a: seq<Chunk>, c: Chunk, b: seq<Chunk>)
    requires TrimTrailing(c) != []
    ensures Kept(a + [c] + b) == Kept(a) + [TrimTrailing(c)] + Kept(b)
  {
    assert (a + [c])[..|a|] == a;
    assert Kept(a + [c]) == Kept(a) + [TrimTrailing(c)];
    KeptAppend(a + [c], b);
  }

  /** No line is kept exactly when every chunk is blank after trimming. */
  lemma {:induction false} KeptEmptyIff(chunks: seq<Chunk>)
    ensures Kept(chunks) == [] <==> forall j :: 0 <= j < |chunks| ==> TrimTrailing(chunks[j]) == []
    decreases |chunks|
  {
    if chunks != [] {
      var init := chunks[..|chunks| - 1];
      var last := chunks[|chunks| - 1];
      KeptEmptyIff(init);
      assert Kept(chunks) == Kept(init) + LineOf(last);
      if Kept(chunks) == [] {
        assert LineOf(last) == [];
        forall j | 0 <= j < |chunks|
          ensures TrimTrailing(chunks[j]) == []
        {
          if j < |init| {
            assert chunks[j] == init[j];
          }
        }
      } else if Kept(init) != [] {
        var j :| 0 <= j < |init| && TrimTrailing(init[j]) != [];
        assert chunks[j] == init[j];
      }
    }
  }

  /** An open file yields the null script exactly when no line it reads is non-blank. */
  lemma NullScriptIff(chunks: seq<Chunk>)
    ensures ScriptOf(chunks) == None <==>
      forall j :: 0 <= j < ReadCount(chunks) ==> TrimTrailing(chunks[j]) == []
  {
    var n := ReadCount(chunks);
    KeptEmptyIff(chunks[..n]);
    assert forall j :: 0 <= j < n ==> chunks[..n][j] == chunks[j];
  }

  /** readScript's loop that removes trailing blanks from the buffer. */
  method TrimmedLength(buffer: string) returns (len: nat)
    ensures len <= |buffer| && buffer[..len] == TrimTrailing(buffer)
  {
    len := |buffer|;
    while len > 0 && IsBlank(buffer[len - 1])
      invariant len <= |buffer|
      invariant TrimTrailing(buffer[..len]) == TrimTrailing(buffer)
    {
      assert buffer[..len][..len - 1] == buffer[..len - 1];
      len := len - 1;
    }
    assert buffer[..len] == TrimTrailing(buffer[..len]);
  }

  /**
   * The files visible on the card. `configFiles` holds, for each name that
   * openFile finds after the change to the config directory, the successive
   * results of fgets on that file.
   */
  datatype Dir = Root | Config

  class SdCard {
    var ok: bool
    const mountable: bool
    var dir: Dir
    const configFiles: map<string, seq<Chunk>>

    constructor (ok: bool, mountable: bool, configFiles: map<string, seq<Chunk>>)
      ensures this.ok == ok && this.mountable == mountable && this.configFiles == configFiles
      ensures dir == Root
    {
      this.ok := ok;
      this.mountable := mountable;
      this.configFiles := configFiles;
      dir := Root;
    }
  }

  class CommandBuffer {
    var t0: Option<seq<string>>
    var t1: Option<seq<string>>
    var wipe: Option<seq<string>>

    ghost predicate Valid()
      reads this
    {
      IsScript(t0) && IsScript(t1) && IsScript(wipe)
    }

    /** The constructor clears t0 and t1; the global instance's wipe starts zeroed as well. */
    constructor ()
      ensures Valid() && t0 == None && t1 == None && wipe == None
    {
      t0, t1, wipe := None, None, None;
    }

    function HasScriptT0(): (r: bool)
      reads this
      requires Valid()
      ensures r <==> |Lines(t0)| > 0
    {
      t0.Some?
    }

    function HasScriptT1(): (r: bool)
      reads this
      requires Valid()
      ensures r <==> |Lines(t1)| > 0
    {
      t1.Some?
    }

    /** The destructor: every list is released. */
    method Destroy()
      modifies this
      ensures Valid() && t0 == None && t1 == None && wipe == None
    {
      t0, t1, wipe := None, None, None;
    }

    /**
     * initScripts: drop all three scripts, mount the card if needed, read
     * config/T0, config/T1 and config/wipe, and count the scripts found.
     */
    method InitScripts(card: SdCard) returns (count: nat)
      modifies this, card
      ensures Valid()
      ensures card.ok == (old(card.ok) || card.mountable)
      ensures !card.ok ==>
        count == 0 && t0 == None && t1 == None && wipe == None && card.dir == old(card.dir)
      ensures card.ok ==>
        && card.dir == Root
        && t0 == FileScript(card.configFiles, "T0")
        && t1 == FileScript(card.configFiles, "T1")
        && wipe == FileScript(card.configFiles, "wipe")
        && count == Present(t0) + Present(t1) + Present(wipe)
      ensures count <= 3
    {
      t0, t1, wipe := None, None, None;
      count := 0;
      if !card.ok {
        card.ok := card.mountable;   // card.initsd()
        if !card.ok {
          return;
        }
      }
      card.dir := Root;
      card.dir := Config;
      t0 := ReadScript(card, "T0");
      if t0.Some? { count := count + 1; }
      t1 := ReadScript(card, "T1");
      if t1.Some? { count := count + 1; }
      wipe := ReadScript(card, "wipe");
      if wipe.Some? { count := count + 1; }
      card.dir := Root;
    }

    /** readScript: the trimmed non-blank lines of a file, or null. */
    method ReadScript(card: SdCard, filename: string) returns (script: Option<seq<string>>)
      ensures script == FileScript(card.configFiles, filename)
    {
      if filename !in card.configFiles {
        return None;
      }
      var chunks := card.configFiles[filename];
      var lines: seq<string> := [];
      var i := 0;
      while i < |chunks|
        invariant i <= |chunks|
        invariant forall j :: 0 <= j < i ==> |chunks[j]| > 0
        invariant lines == Kept(chunks[..i])
      {
        var buffer := chunks[i];
        if |buffer| == 0 {
          break;
        }
        var len := TrimmedLength(buffer);
        if len > 0 {
          lines := lines + [buffer[..len]];
        }
        assert chunks[..i + 1][..i] == chunks[..i];
        i := i + 1;
      }
      assert i == ReadCount(chunks);
      // an empty head node is not kept
      script := if lines == [] then None else Some(lines);
    }

    /** processScript: run every line in list order and count them in a uint8_t. */
    method ProcessScript(script: Option<seq<string>>) returns (count: nat, executed: seq<string>)
      ensures executed == Lines(script)
      ensures count == |Lines(script)| % 256
    {
      var lines := Lines(script);
      count, executed := 0, [];
      var i := 0;
      while i < |lines|
        invariant i <= |lines|
        invariant executed == lines[..i]
        invariant count == i % 256
      {
        executed := executed + [lines[i]];   // process_command
        count := (count + 1) % 256;
        i := i + 1;
      }
    }
  }
}
