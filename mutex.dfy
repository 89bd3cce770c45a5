/**
 * The mutex tab: creates a named mutual-exclusion marker and releases the
 * one it holds. On Windows the marker is a kernel mutex reached through
 * `CreateMutexW`; elsewhere it is a lock file `/tmp/dagger_mutex_<name>.lock`
 * created exclusively and holding the process id. The tab remembers one
 * marker at a time, in `lockfile` or `mutexHandle`.
 */
module Mutex {
  import opened Wrappers
  import opened Text
  import opened Host

  const LockDir := "/tmp"
  /** The lock file's name before the mutex name. */
  const LockStem := "dagger_mutex_"
  const LockSuffix := ".lock"
  /** The lock path before the mutex name. */
  const LockPrefix := LockDir + "/" + LockStem
  /**
   * The longest name, in UTF-8 bytes, whose lock file the kernel accepts:
   * `NAME_MAX` less the 18 bytes of `dagger_mutex_` and `.lock`.
   */
  const LockNameMax := NameMax - 18
  /** The text of the `OSError` raised when `CreateMutexW` returns the NULL handle. */
  const CreateMutexFailed := "CreateMutex failed"

  /** `os.path.join('/tmp', f"dagger_mutex_{name}.lock")`. */
  function LockPath(name: string): (path: string)
    ensures |path| == |LockPrefix| + |name| + |LockSuffix|
    ensures path[..|LockPrefix|] == LockPrefix && path[|LockPrefix|..|path| - |LockSuffix|] == name
  {
    LockPrefix + name + LockSuffix
  }

  /** Distinct names never share a lock file. */
  lemma LockPathInjective(a: string, b: string)
    requires LockPath(a) == LockPath(b)
    ensures a == b
  {
    var p := LockPath(a);
    assert a == p[|LockPrefix|..|p| - |LockSuffix|];
    assert b == LockPath(b)[|LockPrefix|..|LockPath(b)| - |LockSuffix|];
  }

  /** A path holds a NUL character exactly when the name does. */
  lemma LockPathNul(name: string)
    ensures '\0' in LockPath(name) <==> '\0' in name
  {
    assert LockPath(name) == LockPrefix + (name + LockSuffix);
  }

  /** Characters after the last `/` do not change the directory a path is in. */
  lemma {:induction false} ParentAppend(p: string, s: string)
    requires p != [] && p[|p| - 1] == '/'
    requires '/' !in s
    ensures Parent(p + s) == Parent(p)
    decreases |s|
  {
    if s != [] {
      var q := s[..|s| - 1];
      assert (p + s)[..|p + s| - 1] == p + q;
      assert (p + s)[|p + s| - 1] == s[|s| - 1];
      assert '/' !in q by {
        forall k | 0 <= k < |q| ensures q[k] != '/' {
          assert q[k] == s[k];
        }
      }
      ParentAppend(p, q);
    } else {
      assert p + s == p;
    }
  }

  /** For a name without `/`, the lock file is created directly in `/tmp`. */
  lemma LockPathParent(name: string)
    requires '/' !in name
    ensures Parent(LockPath(name)) == LockDir
  {
    var rest := LockStem + name + LockSuffix;
    LockRestNoSlash(name);
    assert LockPath(name) == LockDir + "/" + rest;
    ParentAppend(LockDir + "/", rest);
    assert Parent(LockDir + "/") == LockDir;
  }

  /** Characters after the last `/` are the whole name of the entry. */
  lemma {:induction false} BaseAppend(p: string, s: string)
    requires p != [] && p[|p| - 1] == '/'
    requires '/' !in s
    ensures BaseName(p + s) == s
    decreases |s|
  {
    if s == [] {
      assert p + s == p;
    } else {
      var q := s[..|s| - 1];
      assert (p + s)[..|p + s| - 1] == p + q;
      assert (p + s)[|p + s| - 1] == s[|s| - 1];
      assert '/' !in q by {
        forall k | 0 <= k < |q| ensures q[k] != '/' {
          assert q[k] == s[k];
        }
      }
      BaseAppend(p, q);
      assert q + [s[|s| - 1]] == s;
    }
  }

  /** The lock file's own name has no `/` when the mutex name has none. */
  lemma {:induction false} LockRestNoSlash(name: string)
    requires '/' !in name
    ensures '/' !in LockStem + name + LockSuffix
  {
    var rest := LockStem + name + LockSuffix;
    forall k | 0 <= k < |rest| ensures rest[k] != '/' {
      if k < |LockStem| {
        assert rest[k] == LockStem[k];
      } else if k < |LockStem| + |name| {
        assert rest[k] == name[k - |LockStem|];
      } else {
        assert rest[k] == LockSuffix[k - |LockStem| - |name|];
      }
    }
  }

  /** The fixed parts of a lock path are ASCII. */
  lemma LockStemAscii()
    ensures Utf8Length(LockStem) == |LockStem| && Utf8Length(LockSuffix) == |LockSuffix|
    ensures Utf8Length(LockDir + "/") == |LockDir + "/"|
  {
    AsciiUtf8(LockStem);
    AsciiUtf8(LockSuffix);
    AsciiUtf8(LockDir + "/");
  }

  /**
   * For a name without `/`, the kernel refuses the lock file's path as too
   * long exactly when the name takes more than `LockNameMax` bytes.
   */
  lemma {:induction false} LockPathTooLong(name: string)
    requires '/' !in name
    ensures TooLong(LockPath(name)) <==> Utf8Length(name) > LockNameMax
  {
    var rest := LockStem + name + LockSuffix;
    LockRestNoSlash(name);
    assert LockPath(name) == LockDir + "/" + rest;
    BaseAppend(LockDir + "/", rest);
    LockStemAscii();
    Utf8Append(LockStem, name);
    Utf8Append(LockStem + name, LockSuffix);
    Utf8Append(LockDir + "/", rest);
  }

  // ---------------------------------------------------------------- outcomes

  datatype CreateOutcome =
    | NameRequired                          // "Input required" dialog
    | CreatedMutex(name: string)            // a kernel mutex was opened
    | CreatedLockfile(path: string)         // the lock file was created
    | AlreadyExists(name: string)           // FileExistsError from the exclusive create
    | CreateFailed(reason: string)          // any other error

  datatype ReleaseOutcome =
    | ReleasedMutex
    | RemovedLockfile(path: string)
    | NothingToRelease
    | ReleaseFailed(reason: string)

  /** The lines Create adds to the tab's output and the application log. */
  function CreateLog(o: CreateOutcome): (lines: seq<string>)
    ensures |lines| <= 1
    ensures lines == [] <==> o.NameRequired?
  {
    match o
    case NameRequired => []
    case CreatedMutex(name) => ["Created Windows mutex '" + name + "'"]
    case CreatedLockfile(path) => ["Created lockfile '" + path + "'"]
    case AlreadyExists(name) => ["Mutex/lock '" + name + "' already exists"]
    case CreateFailed(reason) => ["Mutex create error: " + reason]
  }

  /** The line Release adds to the tab's output and the application log. */
  function ReleaseMessage(o: ReleaseOutcome): (line: string)
    ensures StartsWith(line, "Mutex release error: ") <==> o.ReleaseFailed?
  {
    match o
    case ReleasedMutex =>
      assert "Released Windows mutex"[0] == 'R';
      "Released Windows mutex"
    case RemovedLockfile(path) =>
      var line := "Removed lockfile " + path;
      assert line[0] == 'R';
      line
    case NothingToRelease =>
      assert "No mutex/lock to release"[0] == 'N';
      "No mutex/lock to release"
    case ReleaseFailed(reason) => "Mutex release error: " + reason
  }

  /**
   * What Create does, given the file system and, on Windows, the handle
   * `CreateMutexW` returns (0 for failure). A lock file is only created
   * where nothing exists; an existing one is reported, never overwritten.
   */
  function CreateResult(windows: bool, files: map<string, Content>, dirs: set<string>,
                        nameField: string, handle: nat): (r: CreateOutcome)
    ensures r.NameRequired? <==> forall k | 0 <= k < |nameField| :: IsSpace(nameField[k])
    ensures r.CreatedMutex? <==> windows && handle != 0 && !r.NameRequired?
    ensures r.CreatedMutex? ==> r.name == Strip(nameField)
    ensures r.CreatedLockfile? ==> !windows && r.path == LockPath(Strip(nameField)) && !Exists(files, dirs, r.path)
    ensures r.AlreadyExists? ==> !windows && r.name == Strip(nameField) && Exists(files, dirs, LockPath(r.name))
  {
    var name := Strip(nameField);
    if name == "" then NameRequired
    else if windows then
      (if handle == 0 then CreateFailed(CreateMutexFailed) else CreatedMutex(name))
    else
      var path := LockPath(name);
      match ExclusiveCreateFault(files, dirs, path)
      case None => CreatedLockfile(path)
      case Some(FileExists) => AlreadyExists(name)
      case Some(f) => CreateFailed(FaultText(f, path))
  }

  /**
   * What Release does, given what the tab holds. A held mutex is released
   * first; a remembered lock file is removed, and when that fails the error
   * is reported and the path is still remembered.
   */
  function ReleaseResult(windows: bool, mutexHandle: Option<nat>, lockfile: Option<string>,
                         files: map<string, Content>, dirs: set<string>): (r: ReleaseOutcome)
    ensures r.ReleasedMutex? <==> windows && mutexHandle.Some? && mutexHandle.value != 0
    ensures r.RemovedLockfile? ==> lockfile == Some(r.path) && r.path in files
    ensures r.NothingToRelease? <==> !r.ReleasedMutex? && (lockfile.None? || lockfile == Some(""))
    ensures r.ReleaseFailed? ==> lockfile.Some? && RemoveFault(files, dirs, lockfile.value).Some?
  {
    if windows && mutexHandle.Some? && mutexHandle.value != 0 then ReleasedMutex
    else match lockfile
      case None => NothingToRelease
      case Some(path) =>
        if path == "" then NothingToRelease
        else match RemoveFault(files, dirs, path)
          case None => RemovedLockfile(path)
          case Some(f) => ReleaseFailed(FaultText(f, path))
  }

  class MutexTab {
    const windows: bool
    const machine: Machine
    /** The lock file this tab created last, if any. */
    var lockfile: Option<string>
    /** The mutex handle this tab opened last, if any. */
    var mutexHandle: Option<nat>
    /** The lines written to the tab's output (and to the application log). */
    var log: seq<string>

    constructor (windows: bool, machine: Machine)
      ensures this.windows == windows && this.machine == machine
      ensures lockfile == None && mutexHandle == None && log == []
    {
      this.windows := windows;
      this.machine := machine;
      lockfile := None;
      mutexHandle := None;
      log := [];
    }

    /**
     * The Create Mutex button. `pid` is the process id written into a new
     * lock file; `handle` is what `CreateMutexW` returns on Windows, a handle
     * the process does not hold yet, or 0.
     */
    method CreateMutex(nameField: string, pid: nat, handle: nat) returns (outcome: CreateOutcome)
      requires windows && handle != 0 ==> handle !in machine.handles
      modifies this, machine
      ensures outcome == CreateResult(windows, old(machine.files), machine.dirs, nameField, handle)
      ensures machine.files == if outcome.CreatedLockfile? then old(machine.files)[outcome.path := Plain(IntToString(pid))]
                               else old(machine.files)
      ensures machine.handles == if outcome.CreatedMutex? then old(machine.handles) + {handle} else old(machine.handles)
      ensures lockfile == if outcome.CreatedLockfile? then Some(outcome.path) else old(lockfile)
      ensures mutexHandle == if outcome.CreatedMutex? then Some(handle) else old(mutexHandle)
      ensures log == old(log) + CreateLog(outcome)
    {
      var name := Strip(nameField);
      if name == "" {
        return NameRequired;
      }
      if windows {
        if handle == 0 {
          outcome := CreateFailed(CreateMutexFailed);
        } else {
          machine.OpenHandle(handle);
          mutexHandle := Some(handle);
          outcome := CreatedMutex(name);
        }
      } else {
        var path := LockPath(name);
        ghost var expected := CreateResult(windows, machine.files, machine.dirs, nameField, handle);
        var fault := machine.CreateExclusive(path, Plain(IntToString(pid)));
        assert expected == match fault
          case None => CreatedLockfile(path)
          case Some(FileExists) => AlreadyExists(name)
          case Some(f) => CreateFailed(FaultText(f, path));
        if fault.None? {
          lockfile := Some(path);
          outcome := CreatedLockfile(path);
        } else if fault.value == FileExists {
          outcome := AlreadyExists(name);
        } else {
          outcome := CreateFailed(FaultText(fault.value, path));
        }
      }
      log := log + CreateLog(outcome);
    }

    /** The Release Mutex button. */
    method ReleaseMutex() returns (outcome: ReleaseOutcome)
      modifies this, machine
      ensures outcome == ReleaseResult(windows, old(mutexHandle), old(lockfile), old(machine.files), machine.dirs)
      ensures machine.files == if outcome.RemovedLockfile? then old(machine.files) - {outcome.path} else old(machine.files)
      ensures machine.handles == if outcome.ReleasedMutex? then old(machine.handles) - {old(mutexHandle).value}
                                 else old(machine.handles)
      ensures mutexHandle == if outcome.ReleasedMutex? then None else old(mutexHandle)
      ensures lockfile == if outcome.RemovedLockfile? then None else old(lockfile)
      ensures log == old(log) + [ReleaseMessage(outcome)]
    {
      if windows && mutexHandle.Some? && mutexHandle.value != 0 {
        machine.CloseHandle(mutexHandle.value);
        mutexHandle := None;
        outcome := ReleasedMutex;
      } else if lockfile.Some? && lockfile.value != "" {
        var path := lockfile.value;
        var fault := machine.Remove(path);
        if fault.None? {
          lockfile := None;
          outcome := RemovedLockfile(path);
        } else {
          outcome := ReleaseFailed(FaultText(fault.value, path));
        }
      } else {
        outcome := NothingToRelease;
      }
      log := log + [ReleaseMessage(outcome)];
    }
  }

  // ---------------------------------------------------------------- properties

  /**
   * Off Windows, a plain name (no `/`, no NUL) whose lock file does not exist
   * yet, with `/tmp` present, creates exactly that lock file.
   */
  lemma CreateFresh(files: map<string, Content>, dirs: set<string>, nameField: string, handle: nat)
    requires Strip(nameField) != [] && '/' !in Strip(nameField) && '\0' !in Strip(nameField)
    requires Utf8Length(Strip(nameField)) <= LockNameMax
    requires LockDir in dirs && !Exists(files, dirs, LockPath(Strip(nameField)))
    ensures CreateResult(false, files, dirs, nameField, handle) == CreatedLockfile(LockPath(Strip(nameField)))
  {
    LockPathParent(Strip(nameField));
    LockPathNul(Strip(nameField));
    LockPathTooLong(Strip(nameField));
  }

  /**
   * Off Windows, a name too long for a lock file is reported as an error
   * naming the path, and no file is created.
   */
  lemma CreateNameTooLong(files: map<string, Content>, dirs: set<string>, nameField: string, handle: nat)
    requires Strip(nameField) != [] && '/' !in Strip(nameField) && '\0' !in Strip(nameField)
    requires Utf8Length(Strip(nameField)) > LockNameMax
    requires LockDir in dirs && !Exists(files, dirs, LockPath(Strip(nameField)))
    ensures var path := LockPath(Strip(nameField));
      CreateResult(false, files, dirs, nameField, handle) == CreateFailed("[Errno 36] File name too long: " + ReprString(path))
  {
    LockPathParent(Strip(nameField));
    LockPathNul(Strip(nameField));
    LockPathTooLong(Strip(nameField));
  }

  /** Off Windows, a name whose lock file (or any entry at that path) exists is reported as existing. */
  lemma CreateExisting(files: map<string, Content>, dirs: set<string>, nameField: string, handle: nat)
    requires Strip(nameField) != [] && '\0' !in Strip(nameField)
    requires Exists(files, dirs, LockPath(Strip(nameField)))
    ensures CreateResult(false, files, dirs, nameField, handle) == AlreadyExists(Strip(nameField))
  {
    LockPathNul(Strip(nameField));
  }

  /**
   * Releasing right after a successful create removes the file the create
   * added, and the file system is as it was before the create.
   */
  lemma CreateThenRelease(files: map<string, Content>, dirs: set<string>, nameField: string, handle: nat,
                          held: Option<nat>, content: Content)
    requires CreateResult(false, files, dirs, nameField, handle).CreatedLockfile?
    ensures var path := CreateResult(false, files, dirs, nameField, handle).path;
            ReleaseResult(false, held, Some(path), files[path := content], dirs) == RemovedLockfile(path)
            && files[path := content] - {path} == files
  {
    var path := CreateResult(false, files, dirs, nameField, handle).path;
    LockPathNul(Strip(nameField));
    assert path != "" by {
      assert |path| >= |LockPrefix|;
    }
    assert files[path := content] - {path} == files;
  }

  // ---------------------------------------------------------------- scenarios

  /** A one-word name: unchanged by stripping, without `/` or NUL. */
  lemma {:induction false} PlainName(name: string)
    requires name != [] && forall k | 0 <= k < |name| :: 'a' <= name[k] <= 'z' || '0' <= name[k] <= '9'
    ensures Strip(name) == name && '/' !in name && '\0' !in name
    ensures Utf8Length(name) == |name|
  {
    StripUnpadded(name);
    forall k | 0 <= k < |name| ensures name[k] as int < 0x80 {
      assert 'a' <= name[k] <= 'z' || '0' <= name[k] <= '9';
    }
    AsciiUtf8(name);
  }

  /** Off Windows, a one-word name whose lock file is not there yet creates it. */
  lemma PlainCreateFresh(files: map<string, Content>, dirs: set<string>, name: string, handle: nat)
    requires name != [] && |name| <= LockNameMax
    requires forall k | 0 <= k < |name| :: 'a' <= name[k] <= 'z' || '0' <= name[k] <= '9'
    requires LockDir in dirs && !Exists(files, dirs, LockPath(name))
    ensures CreateResult(false, files, dirs, name, handle) == CreatedLockfile(LockPath(name))
  {
    PlainName(name);
    CreateFresh(files, dirs, name, handle);
  }

  /**
   * Create `test1`, create it again, release twice: the second create is
   * refused and leaves the file, the first release removes it, the second
   * has nothing left to release.
   */
  method LockfileLifecycle() returns (o1: CreateOutcome, o2: CreateOutcome, o3: ReleaseOutcome, o4: ReleaseOutcome,
                                      between: map<string, Content>, after: map<string, Content>)
    ensures o1 == CreatedLockfile(LockPath("test1"))
    ensures o2 == AlreadyExists("test1")
    ensures between == map[LockPath("test1") := Plain(IntToString(4242))]
    ensures o3 == RemovedLockfile(LockPath("test1"))
    ensures o4 == NothingToRelease
    ensures after == map[]
  {
    var m := new Machine(map[], {"/", LockDir});
    var tab := new MutexTab(false, m);
    PlainName("test1");
    var before := m.files;
    PlainCreateFresh(before, m.dirs, "test1", 0);
    o1 := tab.CreateMutex("test1", 4242, 0);
    CreateExisting(m.files, m.dirs, "test1", 0);
    o2 := tab.CreateMutex("test1", 4343, 0);
    between := m.files;
    CreateThenRelease(before, m.dirs, "test1", 0, tab.mutexHandle, Plain(IntToString(4242)));
    o3 := tab.ReleaseMutex();
    o4 := tab.ReleaseMutex();
    after := m.files;
  }

  /** With only `a`'s lock file in `/tmp`, `b`'s lock path is free. */
  lemma SecondLockFree(files: map<string, Content>, dirs: set<string>)
    requires files == map[LockPath("a") := Plain(IntToString(1))] && dirs == {"/", LockDir}
    ensures !Exists(files, dirs, LockPath("b"))
  {
    assert LockPath("a")[|LockPrefix|] != LockPath("b")[|LockPrefix|];
    assert |LockPath("b")| == |LockPrefix| + 1 + |LockSuffix|;
  }

  /**
   * Create `a`, then `b`, then release: only `b` is removed; the lock file
   * of `a` stays on disk and the tab no longer knows about it.
   */
  method AbandonedLockfile() returns (held: Option<string>, released: ReleaseOutcome, after: set<string>)
    ensures held == Some(LockPath("b"))
    ensures released == RemovedLockfile(LockPath("b"))
    ensures after == {LockPath("a")}
  {
    var m := new Machine(map[], {"/", LockDir});
    var tab := new MutexTab(false, m);
    PlainCreateFresh(m.files, m.dirs, "a", 0);
    var o1 := tab.CreateMutex("a", 1, 0);
    var between := m.files;
    SecondLockFree(between, m.dirs);
    PlainCreateFresh(between, m.dirs, "b", 0);
    var o2 := tab.CreateMutex("b", 1, 0);
    held := tab.lockfile;
    CreateThenRelease(between, m.dirs, "b", 0, tab.mutexHandle, Plain(IntToString(1)));
    released := tab.ReleaseMutex();
    after := m.files.Keys;
  }

  /**
   * On Windows, creating twice stores the second handle over the first;
   * release closes only the second, and the first stays open in the process.
   */
  method LeakedHandle() returns (released: ReleaseOutcome, stillOpen: set<nat>, held: Option<nat>)
    ensures released == ReleasedMutex
    ensures stillOpen == {5}
    ensures held == None
  {
    var m := new Machine(map[], {"/"});
    var tab := new MutexTab(true, m);
    StripUnpadded("m");
    var o1 := tab.CreateMutex("m", 1, 5);
    var o2 := tab.CreateMutex("m", 1, 7);
    released := tab.ReleaseMutex();
    stillOpen := m.handles;
    held := tab.mutexHandle;
  }
}
