/** The ROM record of common/src/rom.c: the bytes of a program file and the
    file's name without its directories. Opening, sizing and reading the file
    are left to the caller: the file's bytes arrive as `image`. A path is the
    text of a C string, the characters before its terminating NUL. */
module Roms {
  import opened Wrappers
  import opened Bits

  /** The build target; it decides the directory separator `LoadRom` looks for. */
  datatype Platform = Windows | Posix

  /** `'\\'` on WIN32 builds, `'/'` everywhere else. */
  function Separator(platform: Platform): (sep: char)
    ensures sep == '/' || sep == '\\'
    ensures sep == '\\' <==> platform == Windows
  {
    match platform
    case Windows => '\\'
    case Posix => '/'
  }

  /** `strrchr`: the position of the last `c` in `s`, or `None` (NULL) when
      `s` holds no `c`. */
  function LastIndexOf(s: string, c: char): (k: Option<nat>)
    ensures k.Some? ==> k.value < |s| && s[k.value] == c
    ensures k.Some? ==> forall j :: k.value < j < |s| ==> s[j] != c
    ensures k.None? <==> c !in s
    decreases |s|
  {
    if |s| == 0 then None
    else if s[|s| - 1] == c then Some(|s| - 1)
    else LastIndexOf(s[..|s| - 1], c)
  }

  /** The text `LoadRom` copies into `rom->name`: what follows the last
      separator, or the whole path when it holds none. It is a suffix of the
      path and contains no separator. */
  function Basename(path: string, sep: char): (name: string)
    ensures |name| <= |path| && name == path[|path| - |name|..]
    ensures sep !in name
  {
    match LastIndexOf(path, sep)
    case Some(k) => path[k + 1..]
    case None => path
  }

  /** With a separator at `k` and none after it, the name is the text after
      position `k`. */
  lemma BasenameAfterLastSeparator(path: string, sep: char, k: nat)
    requires k < |path| && path[k] == sep
    requires forall j :: k < j < |path| ==> path[j] != sep
    ensures Basename(path, sep) == path[k + 1..]
  {
  }

  /** A path without a separator is its own name. */
  lemma BasenameWithoutSeparator(path: string, sep: char)
    requires sep !in path
    ensures Basename(path, sep) == path
  {
  }

  /** The name is the longest suffix of the path that holds no separator:
      any separator-free suffix is a suffix of the name. */
  lemma BasenameIsLongest(path: string, sep: char, n: nat)
    requires n <= |path| && sep !in path[n..]
    ensures |path| - n <= |Basename(path, sep)|
  {
  }

  /** The block `malloc(read_size + 1)` holds once `strncpy` has copied
      `read_size` characters of the name and the NUL is stored at index
      `read_size`. */
  function NameBuffer(path: string, sep: char): (buf: seq<char>)
    ensures |buf| == |Basename(path, sep)| + 1
    ensures buf[|buf| - 1] == '\0'
  {
    Basename(path, sep) + ['\0']
  }

  /** The characters of a C string stored in `buf`: those before the first
      NUL (all of them when there is none). */
  function CString(buf: seq<char>): (s: string)
    ensures |s| <= |buf| && s == buf[..|s|]
    ensures '\0' !in s
    ensures |s| < |buf| ==> buf[|s|] == '\0'
  {
    if |buf| == 0 || buf[0] == '\0' then []
    else [buf[0]] + CString(buf[1..])
  }

  /** Read back as a C string, the name buffer yields the name: `strlen` of
      `rom->name` is `read_size`, so the stored NUL terminates it. */
  lemma {:induction false} CStringOfNameBuffer(path: string, sep: char)
    requires '\0' !in path
    ensures CString(NameBuffer(path, sep)) == Basename(path, sep)
  {
    var name := Basename(path, sep);
    assert '\0' !in name by {
      forall j | 0 <= j < |name| ensures name[j] != '\0' {
        assert name[j] == path[|path| - |name| + j];
      }
    }
    CStringTerminated(name);
  }

  /** A NUL appended to text that holds none ends the string right there. */
  lemma {:induction false} CStringTerminated(s: string)
    requires '\0' !in s
    ensures CString(s + ['\0']) == s
    decreases |s|
  {
    if |s| > 0 {
      assert (s + ['\0'])[1..] == s[1..] + ['\0'];
      CStringTerminated(s[1..]);
    }
  }

  /** `Rom`: the program bytes (`memory`), the file name (`name`) and the
      byte count as a `uint16_t` (`rom_size`). A pointer that may be NULL is
      an `Option`. */
  class Rom {
    var memory: Option<seq<u8>>
    var name: Option<seq<char>>
    var romSize: u16

    /** The part of `LoadRom` after the file is read: `image` is what `fread`
        stored, its length the `filesize` that `ftell` reported, and the name
        comes from `path` on `platform`. Storing `filesize` into the 16-bit
        `rom_size` keeps it modulo 2^16. */
    constructor (path: string, image: seq<u8>, platform: Platform)
      ensures memory == Some(image)
      ensures romSize == |image| % 0x1_0000
      ensures name == Some(NameBuffer(path, Separator(platform)))
    {
      memory := Some(image);
      romSize := |image| % 0x1_0000;
      name := Some(NameBuffer(path, Separator(platform)));
    }
  }

  /** `DestroyRom(&rom)`: the returned reference is the new `*rom`. A ROM
      that is there loses its name and its bytes and its size drops to 0;
      `*rom` becomes NULL either way. */
  method DestroyRom(rom: Rom?) returns (r: Rom?)
    modifies rom
    ensures r == null
    ensures rom != null ==> rom.name.None? && rom.memory.None? && rom.romSize == 0
  {
    r := rom;
    if rom != null {
      if rom.name.Some? {
        rom.name := None;
      }
      if rom.memory.Some? {
        rom.memory := None;
      }
      rom.romSize := 0;
      r := null;
    }
  }
}
