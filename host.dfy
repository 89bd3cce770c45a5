/**
 * The parts of the host operating system the tabs touch: a file system
 * (regular files with their contents, and the set of directories, which the
 * tabs never change) and the kernel's table of open handles. Each call the
 * source makes is a method here whose contract is the operating system's
 * behaviour, stated by a function of the state before the call.
 */
module Host {
  import opened Wrappers
  import opened Text
  import opened Json

  /**
   * What a regular file holds: either a JSON document, as `json.load`
   * reads it back, or plain text, which is what any file the tabs do not
   * read as JSON is kept as (its text may or may not happen to parse).
   */
  datatype Content = Plain(text: string) | Document(doc: Json)

  /** The calls that reject a path holding a NUL character, each with its own message. */
  datatype PathCall = BuiltinOpen | OsOpen | OsRemove

  /** The operating-system errors the tabs can meet, as the `OSError` subclass Python raises. */
  datatype Fault =
    | FileExists               // FileExistsError, errno 17
    | NoSuchFile               // FileNotFoundError, errno 2
    | NotADirectory            // NotADirectoryError, errno 20
    | IsADirectory             // IsADirectoryError, errno 21
    | NameTooLong              // OSError, errno 36
    | EmbeddedNul(call: PathCall)  // ValueError from a path holding a NUL character

  /**
   * `str(e)` for the exception raised on `path`: an `OSError` names its
   * errno and ends with the path's `repr()`; the `ValueError` for a NUL
   * character names neither.
   */
  function FaultText(f: Fault, path: string): (t: string)
    ensures !f.EmbeddedNul? ==> StartsWith(t, "[Errno ") && EndsWith(t, ReprString(path))
    ensures f.EmbeddedNul? ==> !StartsWith(t, "[Errno ")
  {
    match f
    case FileExists => "[Errno 17] File exists: " + ReprString(path)
    case NoSuchFile => "[Errno 2] No such file or directory: " + ReprString(path)
    case NotADirectory => "[Errno 20] Not a directory: " + ReprString(path)
    case IsADirectory => "[Errno 21] Is a directory: " + ReprString(path)
    case NameTooLong => "[Errno 36] File name too long: " + ReprString(path)
    case EmbeddedNul(BuiltinOpen) =>
      assert "embedded null byte"[0] == 'e';
      "embedded null byte"
    case EmbeddedNul(OsOpen) =>
      assert "open: embedded null character in path"[0] == 'o';
      "open: embedded null character in path"
    case EmbeddedNul(OsRemove) =>
      assert "remove: embedded null character in path"[0] == 'r';
      "remove: embedded null character in path"
  }

  /** The directory in which `path` is created or looked up: the text before its last `/`, or `/` for a top-level entry. */
  function Parent(path: string): (d: string)
    ensures |d| <= |path|
  {
    if path == [] then ""
    else if path[|path| - 1] == '/' then (if |path| == 1 then "/" else path[..|path| - 1])
    else Parent(path[..|path| - 1])
  }

  /**
   * The name `path` gives its entry: the text after its last `/`. With
   * `Parent`, it is what the kernel looks up in the parent directory.
   */
  function BaseName(path: string): (b: string)
    ensures |b| <= |path| && '/' !in b
  {
    if path == [] || path[|path| - 1] == '/' then []
    else BaseName(path[..|path| - 1]) + [path[|path| - 1]]
  }

  /** The number of bytes `c` takes in UTF-8, the encoding Python gives paths on Linux. */
  function Utf8Width(c: char): nat
  {
    if c as int < 0x80 then 1 else if c as int < 0x800 then 2 else if c as int < 0x10000 then 3 else 4
  }

  function Utf8Length(s: string): (n: nat)
    ensures n >= |s|
  {
    if s == [] then 0 else Utf8Length(s[..|s| - 1]) + Utf8Width(s[|s| - 1])
  }

  /** UTF-8 lengths add up over a concatenation. */
  lemma {:induction false} Utf8Append(a: string, b: string)
    ensures Utf8Length(a + b) == Utf8Length(a) + Utf8Length(b)
    decreases |b|
  {
    if b == [] {
      assert a + b == a;
    } else {
      var c := a + b;
      assert c[..|c| - 1] == a + b[..|b| - 1];
      assert c[|c| - 1] == b[|b| - 1];
      Utf8Append(a, b[..|b| - 1]);
    }
  }

  /** An ASCII string takes one byte per character. */
  lemma {:induction false} AsciiUtf8(s: string)
    requires forall k | 0 <= k < |s| :: s[k] as int < 0x80
    ensures Utf8Length(s) == |s|
  {
    if s != [] {
      AsciiUtf8(s[..|s| - 1]);
    }
  }

  /** Linux's `PATH_MAX`: a path of this many bytes or more is refused whole. */
  const PathMax := 4096
  /** Linux's `NAME_MAX`: the longest name a directory holds, in bytes. */
  const NameMax := 255

  /** The kernel refuses `path` with `ENAMETOOLONG`: the path or the name of its entry is over the limit. */
  predicate TooLong(path: string)
  {
    Utf8Length(path) >= PathMax || Utf8Length(BaseName(path)) > NameMax
  }

  /** `os.path.exists(path)`. */
  predicate Exists(files: map<string, Content>, dirs: set<string>, path: string)
  {
    path in files || path in dirs
  }

  /**
   * The error met on the way to the directory that holds `path`, walking
   * from the root down: the first entry on the way that is missing gives
   * `FileNotFoundError` (or `ENAMETOOLONG` when its name is too long to
   * exist), the first that is a regular file gives `NotADirectoryError`.
   * There is none exactly when that directory exists.
   */
  function ParentFault(files: map<string, Content>, dirs: set<string>, path: string): (f: Option<Fault>)
    ensures f.None? <==> Parent(path) in dirs
    ensures f.Some? ==> f.value == NoSuchFile || f.value == NotADirectory || f.value == NameTooLong
    decreases |path|
  {
    var p := Parent(path);
    if p in dirs then None
    else if |p| >= |path| then Some(NoSuchFile)
    else match ParentFault(files, dirs, p)
      case Some(f) => Some(f)
      case None =>
        if p in files then Some(NotADirectory)
        else if Utf8Length(BaseName(p)) > NameMax then Some(NameTooLong)
        else Some(NoSuchFile)
  }

  /**
   * The error met making a new entry at `path`, or looking up a missing
   * one: a path too long as a whole is refused before the walk, then comes
   * the walk to its directory, then the length of the new name.
   */
  function NewEntryFault(files: map<string, Content>, dirs: set<string>, path: string): (f: Option<Fault>)
    ensures f.None? <==> Parent(path) in dirs && !TooLong(path)
    ensures f.Some? ==> f.value == NoSuchFile || f.value == NotADirectory || f.value == NameTooLong
  {
    if Utf8Length(path) >= PathMax then Some(NameTooLong)
    else match ParentFault(files, dirs, path)
      case Some(f) => Some(f)
      case None => if Utf8Length(BaseName(path)) > NameMax then Some(NameTooLong) else None
  }

  /** The error `os.open(path, O_WRONLY | O_CREAT | O_EXCL)` raises, if any. */
  function ExclusiveCreateFault(files: map<string, Content>, dirs: set<string>, path: string): (f: Option<Fault>)
    ensures f.None? <==> '\0' !in path && !Exists(files, dirs, path) && Parent(path) in dirs && !TooLong(path)
    ensures Exists(files, dirs, path) && '\0' !in path ==> f == Some(FileExists)
    ensures '\0' in path ==> f == Some(EmbeddedNul(OsOpen))
  {
    if '\0' in path then Some(EmbeddedNul(OsOpen))
    else if Exists(files, dirs, path) then Some(FileExists)
    else NewEntryFault(files, dirs, path)
  }

  /** The error `open(path, "w")` raises, if any; an existing file is truncated. */
  function WriteFault(files: map<string, Content>, dirs: set<string>, path: string): (f: Option<Fault>)
    ensures f.None? <==> '\0' !in path && path !in dirs && (path in files || (Parent(path) in dirs && !TooLong(path)))
    ensures '\0' in path ==> f == Some(EmbeddedNul(BuiltinOpen))
    ensures '\0' !in path && path in dirs ==> f == Some(IsADirectory)
  {
    if '\0' in path then Some(EmbeddedNul(BuiltinOpen))
    else if path in dirs then Some(IsADirectory)
    else if path in files then None
    else NewEntryFault(files, dirs, path)
  }

  /** The error `os.remove(path)` raises, if any. */
  function RemoveFault(files: map<string, Content>, dirs: set<string>, path: string): (f: Option<Fault>)
    ensures f.None? <==> path in files && '\0' !in path
    ensures '\0' in path ==> f == Some(EmbeddedNul(OsRemove))
  {
    if '\0' in path then Some(EmbeddedNul(OsRemove))
    else if path in files then None
    else if path in dirs then Some(IsADirectory)
    else match NewEntryFault(files, dirs, path)
      case Some(f) => Some(f)
      case None => Some(NoSuchFile)
  }

  /** What `open(path, "r")` yields: the file's content or the error raised. */
  function ReadFile(files: map<string, Content>, dirs: set<string>, path: string): (r: Result<Content, Fault>)
    ensures r.Ok? <==> path in files && '\0' !in path
    ensures r.Ok? ==> r.value == files[path]
    ensures '\0' in path ==> r == Err(EmbeddedNul(BuiltinOpen))
  {
    if '\0' in path then Err(EmbeddedNul(BuiltinOpen))
    else if path in files then Ok(files[path])
    else if path in dirs then Err(IsADirectory)
    else match NewEntryFault(files, dirs, path)
      case Some(f) => Err(f)
      case None => Err(NoSuchFile)
  }

  class Machine {
    var files: map<string, Content>
    const dirs: set<string>
    /** Handles the kernel has open for this process. */
    var handles: set<nat>

    constructor (files: map<string, Content>, dirs: set<string>)
      ensures this.files == files && this.dirs == dirs && handles == {}
    {
      this.files := files;
      this.dirs := dirs;
      handles := {};
    }

    /** `os.open(path, O_WRONLY | O_CREAT | O_EXCL)`, then writing `content` and closing. */
    method CreateExclusive(path: string, content: Content) returns (fault: Option<Fault>)
      modifies this`files
      ensures fault == ExclusiveCreateFault(old(files), dirs, path)
      ensures files == if fault.None? then old(files)[path := content] else old(files)
    {
      fault := ExclusiveCreateFault(files, dirs, path);
      if fault.None? {
        files := files[path := content];
      }
    }

    /** `open(path, "w")` and writing `content`. */
    method Write(path: string, content: Content) returns (fault: Option<Fault>)
      modifies this`files
      ensures fault == WriteFault(old(files), dirs, path)
      ensures files == if fault.None? then old(files)[path := content] else old(files)
    {
      fault := WriteFault(files, dirs, path);
      if fault.None? {
        files := files[path := content];
      }
    }

    /** `os.remove(path)`. */
    method Remove(path: string) returns (fault: Option<Fault>)
      modifies this`files
      ensures fault == RemoveFault(old(files), dirs, path)
      ensures files == if fault.None? then old(files) - {path} else old(files)
    {
      fault := RemoveFault(files, dirs, path);
      if fault.None? {
        files := files - {path};
      }
    }

    /** `open(path, "r")` and reading the whole file. */
    method Read(path: string) returns (r: Result<Content, Fault>)
      ensures r == ReadFile(files, dirs, path)
    {
      r := ReadFile(files, dirs, path);
    }

    /**
     * `CreateMutexW` returning `handle`, which the kernel chooses; 0 is the
     * NULL handle of a failed call. A non-NULL handle is one not already open.
     */
    method OpenHandle(handle: nat)
      requires handle != 0 ==> handle !in handles
      modifies this`handles
      ensures handles == if handle == 0 then old(handles) else old(handles) + {handle}
    {
      if handle != 0 {
        handles := handles + {handle};
      }
    }

    /** `CloseHandle(handle)`. */
    method CloseHandle(handle: nat)
      modifies this`handles
      ensures handles == old(handles) - {handle}
    {
      handles := handles - {handle};
    }
  }
}
