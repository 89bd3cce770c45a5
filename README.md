# DAGGER tabs, modelled in Dafny

DAGGER is a desktop IOC (indicator of compromise) simulator: a Tkinter
window whose tabs produce the network, registry, file and mutex activity a
detection tool should notice. This project models three of those tabs:
what each button does with its input fields, and the state it changes.

- **Network tab** (`network.dfy`). This covers the input checks of the
  Resolve, TCP Connect and HTTP GET buttons, and the "allow external" policy
  gate in front of TCP and HTTP. Each background worker is modelled by the
  line it logs, given what the foreign network call returned.
- **Registry tab** (`registry.dfy`). This covers the Query button.
  - On Windows: the key is split into a root key name and a sub-path at the
    first two-character `\\` separator. Then one value is read, or all
    values are enumerated until the first failing index.
  - Elsewhere: a JSON store file stands in for the registry. It is created
    holding `{}` when the tab is built and the file is missing.
- **Mutex tab** (`mutex.dfy`). This is a class over the fields the source
  updates: the remembered lock file, the remembered mutex handle, and the
  output log. Create and Release act on a `Host.Machine`, which holds the
  file system and the process's open kernel handles.
  - Create makes `/tmp/dagger_mutex_<name>.lock` exclusively, or opens a
    Windows mutex.
  - Release removes or closes what the tab remembers.

Shared modules:
- `text.dfy`: the Python string operations the tabs use (`strip`, `int()`,
  `str()` of an integer, `join`, `repr()` of a string). It also holds two
  definitions the tabs do not call: `Find`, which states where
  `key.split("\\\\", 1)` cuts, and `Split`, which states that the `;`-joined
  value list can be read back.
- `json.dfy`: loaded JSON values, `json.dumps`, and the `str()` of a loaded
  value.
- `host.dfy`: the operating-system calls (`os.open` with `O_EXCL`,
  `os.remove`, `open`, `os.path.exists`, `CreateMutexW`/`CloseHandle`),
  each with the errors it raises.
- `wrappers.dfy`: `Option` and `Result`.

Inputs the program gets from outside are parameters:
- the text of the entry fields;
- the platform;
- the process id;
- the handle `CreateMutexW` returns;
- what `urlparse` makes of a URL;
- the answers of the DNS, socket, HTTP and Windows registry calls.

The registry key separator is the two-character string `\\`, as the code
writes it. A key typed with a single backslash, such as
`HKEY_CURRENT_USER\Software`, has no separator. The whole key is then taken
as the root key name, and the query ends in a "no attribute" error
(`Registry.SingleBackslashKey`).

## Model

| member | source | states |
|---|---|---|
| Text.Strip | tabs/network_tab.py:57 | The stripped text is the part of the field between its leading and trailing whitespace. It is empty exactly when the field is all whitespace. Otherwise it starts and ends with a non-space. |
| Text.StripUnpadded | tabs/network_tab.py:76-77 | Text with no whitespace at either end is left unchanged by `strip()`. |
| Text.StripIdempotent | tabs/registry_tab.py:50-51 | Stripping an already stripped field changes nothing. |
| Text.ParseInt | tabs/network_tab.py:82 | `int()` accepts a text if and only if, after one optional leading sign, it is a run of digits with single underscores between digits, holding at most 4300 digits (Python's default limit on integer string conversion). What it accepts holds only digits, underscores and that sign. The value is never positive after `-` and never negative otherwise. |
| Text.ParseDigitRun | tabs/network_tab.py:82 | `int()` reads a run of at most 4300 digits (with single underscores) as its value, unsigned or after `+`, and after `-` as the negation. |
| Text.TooManyDigits | tabs/network_tab.py:82-85 | A run of more than 4300 digits is refused by `int()`, unsigned or signed, so it is an invalid port. |
| Text.ParseIntRejects | tabs/network_tab.py:82-85 | `int()` refuses an empty text, a bare sign, an underscore at either end, two underscores in a row and a doubled sign, so each is an invalid port. |
| Text.IntToStringRoundTrip | tabs/network_tab.py:82 | `int(str(n)) == n` for every integer of at most 4300 digits, so a port written in decimal parses back to itself. |
| Text.IntToString | tabs/network_tab.py:94-98 | `str()` of an integer, as the TCP line prints the port: decimal digits, with a leading `-` exactly for a negative number. `int()` reads it back by `Text.IntToStringRoundTrip`. |
| Text.Find | tabs/registry_tab.py:61 | The result is the leftmost occurrence of the separator, or none. No occurrence exists before it; with no result, none exists anywhere. |
| Text.SplitJoin | tabs/registry_tab.py:79 | Joining values with `;` and splitting on `;` gives the values back, provided no value contains `;`. |
| Text.Join | tabs/registry_tab.py:79 | `';'.join(vals)`; its property, that splitting on `;` gives the values back, is stated by `Text.SplitJoin`. |
| Json.Get | tabs/registry_tab.py:83 | `d.get(name)` is absent exactly when no member has that name. When present, it is the value of a member with that name. |
| Json.GetDistinct | tabs/registry_tab.py:85 | In a loaded object, whose names are distinct, `get` returns the value of the one member with that name. |
| Json.Dumps | tabs/registry_tab.py:88 | `json.dumps` of any value is non-empty printable ASCII, so a logged entry stays on one log line. |
| Json.DumpsEmptyObject | tabs/registry_tab.py:20 | The store written for a missing file, and an absent entry, serialise as `{}`. |
| Json.Repr | tabs/registry_tab.py:86 | `repr()` of a loaded value is non-empty. It starts with `[` exactly for a list, with `{` exactly for a dict, and with a quote exactly for a string; a list ends with `]` and a dict with `}`. |
| Json.Str | tabs/registry_tab.py:86 | What `f"{v}"` inserts: a string value as it is, and anything else as its `repr()`, which never starts with a quote. |
| Host.ParentFault | tabs/mutex_tab.py:61 | Creating an entry fails for its directory if and only if the parent directory does not exist. The error is then one of `FileNotFoundError`, `NotADirectoryError` and "File name too long"; which one follows the walk up the path, but the contract promises only that it is one of the three. |
| Host.NewEntryFault | tabs/mutex_tab.py:61 | A new entry can be made at a path if and only if its parent directory exists and the path is not too long: under `PATH_MAX` (4096) bytes in UTF-8, with a last component of at most `NAME_MAX` (255) bytes. Otherwise the error is "No such file", "Not a directory" or "File name too long". |
| Host.BaseName | tabs/mutex_tab.py:60-61 | The last component of a path, whose length `NAME_MAX` limits: never longer than the path and without `/`. |
| Host.ExclusiveCreateFault | tabs/mutex_tab.py:61 | The exclusive create succeeds if and only if the path has no NUL character, nothing exists there, the parent directory exists and the path is not too long for the kernel. A NUL character gives `os.open`'s "embedded null character" error; otherwise an existing entry gives `FileExistsError`. |
| Host.WriteFault | tabs/registry_tab.py:19-20 | `open(path, "w")` succeeds if and only if the path has no NUL character, is not a directory, and is either an existing file or a new entry whose parent directory exists and whose path is not too long for the kernel. A NUL character gives the "embedded null byte" error; otherwise a directory gives `IsADirectoryError`. |
| Host.RemoveFault | tabs/mutex_tab.py:87 | `os.remove` succeeds exactly for an existing regular file whose path has no NUL character. A NUL character gives `os.remove`'s "embedded null character" error. |
| Host.ReadFile | tabs/registry_tab.py:81-82 | Reading succeeds exactly for an existing regular file without NUL in its path, and yields that file's content. A NUL character gives the "embedded null byte" error. |
| Host.FaultText | tabs/mutex_tab.py:74 | The text of an `OSError`: every error but a NUL character starts `[Errno ` and ends with the `repr()` of the path; a NUL character's error does not start `[Errno `. The same texts end the registry and release error lines (tabs/registry_tab.py:93, tabs/mutex_tab.py:96). |
| Host.Machine.CreateExclusive | tabs/mutex_tab.py:61-63 | The file system gains the new file with its content when the create succeeds. Otherwise it is unchanged, and the error is the one `ExclusiveCreateFault` predicts. |
| Host.Machine.Write | tabs/registry_tab.py:19-20 | The file is created or replaced with the content, or nothing changes and the error is reported. |
| Host.Machine.Remove | tabs/mutex_tab.py:87 | Exactly the removed path leaves the file system, or nothing changes and the error is reported. |
| Host.Machine.Read | tabs/registry_tab.py:81-82 | Reading changes nothing and returns what `ReadFile` predicts. |
| Host.Machine.OpenHandle | tabs/mutex_tab.py:54-57 | A non-NULL handle returned by `CreateMutexW` becomes open. The NULL handle opens nothing. |
| Host.Machine.CloseHandle | tabs/mutex_tab.py:83 | The handle is no longer open; every other handle stays open. |
| Network.Resolve | tabs/network_tab.py:57-60 | A blank host field shows the dialog. Any other host is looked up, stripped, with no gate. |
| Network.ResolveMessage | tabs/network_tab.py:62-71 | The logged line starts `DNS resolved ` if and only if the lookup succeeded. A failure logs the host and the error after `DNS resolve error for `. |
| Network.TcpAllowed | tabs/network_tab.py:87 | The TCP gate's condition; its properties are stated by `Network.TcpConnect`, `Network.TcpLocalOnly`, `Network.TcpOpenWhenAllowed` and `Network.TcpGateAdmits127Names`. |
| Network.TcpConnect | tabs/network_tab.py:76-89 | Each of the following holds if and only if its condition does. Input required: either stripped field is empty. Invalid port: both fields are filled but the port is not an integer. Otherwise the gate decides: the connection is attempted exactly when external traffic is allowed, the target starts with `127.`, or the target is `localhost`. |
| Network.TcpLocalOnly | tabs/network_tab.py:87-89 | With the option off and valid input, a connection is attempted if and only if the target starts with `127.` or is `localhost`; it is blocked otherwise. |
| Network.TcpWellFormed | tabs/network_tab.py:76-89 | For a target without surrounding spaces and a decimal port, the outcome is exactly the gate's verdict on that target and port. |
| Network.TcpPortTooLong | tabs/network_tab.py:82-85 | A port field of 5000 digits is an invalid port: `int()` refuses more than 4300 digits. |
| Network.TcpOpenWhenAllowed | tabs/network_tab.py:87 | With the option on, no TCP target is ever blocked. |
| Network.TcpPortCheckedBeforeGate | tabs/network_tab.py:81-89 | A non-integer port gets the port error even for a target the gate would block. |
| Network.TcpGateAdmits127Names | tabs/network_tab.py:87 | The gate is a text test: the host name `127.example.com` passes it with the option off. |
| Network.HttpGet | tabs/network_tab.py:105-116 | A blank URL shows the dialog. With the option on, the stripped URL is always fetched. With it off and a parsed URL, the request is refused exactly when the host name is non-empty and neither `localhost` nor `127.0.0.1`; otherwise it is fetched. With it off and a URL `urlparse` rejects, the button ends with the exception and nothing is fetched. |
| Network.HttpWellFormed | tabs/network_tab.py:111-116 | For a URL without surrounding spaces, the outcome is exactly the gate's verdict on its host name. |
| Network.HttpHostlessNeverBlocked | tabs/network_tab.py:113-114 | A URL with no host name, or an empty one, is never refused. |
| Network.TcpAdmits127002 | tabs/network_tab.py:87 | `127.0.0.2:80` passes the TCP gate with the option off. |
| Network.HttpRefuses127002 | tabs/network_tab.py:114 | `http://127.0.0.2/` is refused by the HTTP gate with the option off. |
| Network.TcpMessage | tabs/network_tab.py:91-100 | The logged line starts `TCP connect success to ` if and only if the connection was made. A failure logs the target, the port in decimal and the error. |
| Network.HttpBlocked | tabs/network_tab.py:114 | The HTTP gate's condition; its properties are stated by `Network.HttpGet`, `Network.HttpWellFormed` and `Network.HttpHostlessNeverBlocked`. |
| Network.GatesDisagreeOn127002 | tabs/network_tab.py:87-116 | The two gates differ: `127.0.0.2` passes for TCP and is refused for HTTP. |
| Network.HttpWorker | tabs/network_tab.py:120-122 | A fetch reports the response's status, which is absent for a `file:` or `data:` URL. The length it reports is the number of bytes `read(512)` returns: the body's length when it is under 512, else 512. A failure reports the error. |
| Network.HttpMessage | tabs/network_tab.py:122-126 | Every line starts `HTTP GET `. A failure logs the URL and the error after `HTTP GET failed `. A fetch's line ends with the length read, in decimal. |
| Network.StatusText | tabs/network_tab.py:122 | The status as the f-string prints it: `None` exactly when the response has no status. |
| Network.TcpConnectAsWritten | tabs/network_tab.py:87 | Testing the `BooleanVar` object rather than its value, the TCP button never blocks. |
| Network.HttpGetAsWritten | tabs/network_tab.py:111 | Testing the object rather than its value, the HTTP button never refuses. |
| Network.TcpAsWrittenAdmits8888 | tabs/network_tab.py:87 | As written, with the option off, `8.8.8.8:53` is connected to. |
| Network.TcpBlocks8888 | tabs/network_tab.py:87 | Applied to the option's value (off), the gate blocks `8.8.8.8:53`. |
| Network.HttpAsWrittenAdmitsExample | tabs/network_tab.py:111 | As written, with the option off, `http://example.com/` is fetched. |
| Network.HttpRefusesExample | tabs/network_tab.py:114 | Applied to the option's value (off), the gate refuses `http://example.com/`. |
| Network.AsWrittenGatesAdmitExternal | main.py:49 | With the option unticked, both buttons as written reach an external address that the gates, applied to the option's value, block. |
| Registry.SplitKey | tabs/registry_tab.py:61-63 | Without a separator the root name is the whole key and the sub-path is empty. Otherwise root, separator and sub-path make up the key. The root name holds no separator, and does not end in a backslash. |
| Registry.SplitKeyUnique | tabs/registry_tab.py:61-63 | The split is the only decomposition of the key into root, separator and sub-path whose root holds no separator and does not end in a backslash. |
| Registry.HiveNamed | tabs/registry_tab.py:64 | A root key is found exactly when the name is one of the `HKEY_` names, and its name is that name. |
| Registry.HiveNameRoundTrip | tabs/registry_tab.py:64 | Each root key is found again by its own `HKEY_` name. |
| Registry.HiveKeySplit | tabs/registry_tab.py:61-63 | A key written as a root key name, the separator and a sub-path splits back into that name and that sub-path. |
| Registry.BareHiveSplit | tabs/registry_tab.py:61-63 | A bare root key name, such as `HKEY_CURRENT_USER`, splits into itself and the empty sub-path, so the root key itself is opened. |
| Registry.EntriesFrom | tabs/registry_tab.py:70-78 | The collected values are those at consecutive indices, each formatted `name=data`. The index just after them fails. |
| Registry.EntriesUnique | tabs/registry_tab.py:70-78 | Only one list is the values for indices 0, 1, … in order, ending just before a failing index. |
| Registry.EnumValue | tabs/registry_tab.py:74 | `winreg.EnumValue` fails at every index past the key's values, so the enumeration ends. |
| Registry.FormatValue | tabs/registry_tab.py:75 | A value is listed as `name=data`; for a name without `=`, the entry cuts back into the name and the data at its first `=`. |
| Registry.EnumerateValues | tabs/registry_tab.py:70-78 | The loop collects the formatted values at indices 0, 1, …. It stops at the first index whose call fails. |
| Registry.StorePath | tabs/registry_tab.py:16 | A given store path is used as is. Without one, the path starts with the tab's directory and ends with `sim_registry.json`. |
| Registry.NativeLookup | tabs/registry_tab.py:61-79 | The Windows lookup reads one value with a name and all values without one, for the key as typed; a key whose root name is not a root key fails with `NoSuchHive` of that name. Its properties are stated by `Registry.NativeValuesJoined`, `Registry.NativeValuesRecoverable` and `Registry.SingleBackslashKey`. |
| Registry.SimulatedLookup | tabs/registry_tab.py:83-88 | A store that is not a JSON object fails, as `get` is missing. Without a name the whole entry is returned, with a name one value. Its properties are stated by `Registry.PresentKeyEntry`, `Registry.AbsentKeyIsEmpty` and `Registry.NamedLookup`. |
| Registry.StoreLookup | tabs/registry_tab.py:81-82 | Reading the store fails with the read error exactly when the file cannot be opened, and fails as malformed exactly when it is not JSON. Both the simulated query and the tab's `Query` method use it. |
| Registry.SimulatedQuery | tabs/registry_tab.py:81-88 | A store file that cannot be opened fails with the open error. A file that is not JSON fails as malformed. A JSON store is looked up by `SimulatedLookup`. |
| Registry.QueryResult | tabs/registry_tab.py:49-95 | The query is refused if and only if the key field is blank. On Windows only Windows outcomes occur, elsewhere only simulated ones. |
| Registry.QueryMessage | tabs/registry_tab.py:68-93 | Every outcome but the refused query logs exactly one line. |
| Registry.FaultMessage | tabs/registry_tab.py:92-93 | The text of the exception that ends a query; for an unknown root key name it is stated by `Registry.NoSuchHiveMessage`. |
| Registry.NoSuchHiveMessage | tabs/registry_tab.py:64 | An unknown root key name logs `Registry query error: module 'winreg' has no attribute '<name>'`, with the name as typed. |
| Registry.SingleBackslashKey | tabs/registry_tab.py:61-64 | A key written with one backslash between two parts has no separator. The whole key is taken as the root key name, no root key has it, and the query logs the missing attribute under the whole key. |
| Registry.ValueName | tabs/registry_tab.py:51 | A blank value field means no name. Otherwise the name is the stripped field. |
| Registry.RegistryTab.constructor | tabs/registry_tab.py:16-20 | Runs exactly when `Registry.StoreInitFault` predicts no error. The store path is the given one, or `sim_registry.json` beside the tab's source. Off Windows, a missing store is created holding `{}`. An existing file or directory is left untouched, and on Windows nothing is written. |
| Registry.StoreInitFault | tabs/registry_tab.py:17-20 | Building the tab fails if and only if it is off Windows, nothing exists at the store path, and the path holds a NUL character, lacks its parent directory or is too long for the kernel. The error is the one `open(path, "w")` raises. |
| Registry.NewRegistryTab | tabs/registry_tab.py:12-20 | Building the tab either raises the error `StoreInitFault` predicts, writing nothing, or yields a new tab over the store path. In the second case a missing store is created holding `{}` off Windows, and the files are otherwise left as they were. |
| Registry.RegistryTab.Query | tabs/registry_tab.py:49-95 | The query's outcome is the one the backend's lookup defines. The method has no `modifies` clause, so it changes no file. |
| Registry.BlankKeyNoQuery | tabs/registry_tab.py:52-54 | A blank key performs no query, on either backend. |
| Registry.BlankNameGivesEntry | tabs/registry_tab.py:51 | A blank value field behaves exactly as an empty one: the simulated lookup is the one without a name (the whole entry, for an object store), and the whole query's outcome is the same on both backends. |
| Registry.PresentKeyEntry | tabs/registry_tab.py:83-88 | Without a name, a key present in the store returns its entry, and the logged line is `Simulated registry <key> = ` followed by `json.dumps` of the entry. |
| Registry.AbsentKeyIsEmpty | tabs/registry_tab.py:83-88 | A key missing from the store reads as `{}` without a name. With a name, it reads as `<not present>`. |
| Registry.NamedLookup | tabs/registry_tab.py:84-86 | With a name, the entry's value of that name is returned. When the entry lacks it, the result is `<not present>`. |
| Registry.EmptyStoreQuery | tabs/registry_tab.py:81-88 | Against a store holding `{}`, the query for `HKCU` with no name logs `Simulated registry HKCU = {}`. |
| Registry.NativeValuesJoined | tabs/registry_tab.py:61-79 | Without a name, the Windows query logs the enumerated values joined with `;`. |
| Registry.NativeNamedValue | tabs/registry_tab.py:61-67 | With a name, for every key that splits into a root key's name and a sub-path (with or without a separator), the Windows query opens that sub-path under the root key and asks it for that value. It logs the value's data; a failure of `OpenKey` or of `QueryValueEx` is logged with the error's text. |
| Registry.NativeValuesOpened | tabs/registry_tab.py:61-79 | Without a name, for every key that splits into a root key's name and a sub-path, a sub-path `OpenKey` cannot open is logged with the error's text, and an opened key yields its enumerated values. |
| Registry.NativeValuesRecoverable | tabs/registry_tab.py:79 | When at least one value was enumerated and no value contains `;`, the logged list splits back into exactly the enumerated values. An empty list logs an empty text, which splits into one empty value. |
| Mutex.LockPath | tabs/mutex_tab.py:60 | The lock file's path for a name; its properties are stated by `Mutex.LockPathInjective`, `Mutex.LockPathNul` and `Mutex.LockPathParent`. |
| Mutex.LockPathInjective | tabs/mutex_tab.py:60 | Distinct names never share a lock file. |
| Mutex.LockPathNul | tabs/mutex_tab.py:60-61 | The lock path holds a NUL character exactly when the name does. |
| Mutex.LockPathParent | tabs/mutex_tab.py:60 | For a name without `/`, the lock file lives directly in `/tmp`. |
| Mutex.LockPathTooLong | tabs/mutex_tab.py:60-61 | For a name without `/`, the kernel refuses the lock path as too long exactly when the name takes more than 237 bytes in UTF-8: `NAME_MAX` less the 18 bytes of `dagger_mutex_` and `.lock`. |
| Mutex.CreateResult | tabs/mutex_tab.py:40-76 | A blank name is rejected if and only if the field is all whitespace. On Windows a mutex is created exactly for a non-NULL handle. Off Windows a lock file is created only where nothing exists, and "already exists" is reported only where something does. |
| Mutex.CreateLog | tabs/mutex_tab.py:41-76 | Create logs at most one line, and logs none if and only if the name was blank. |
| Mutex.ReleaseMessage | tabs/mutex_tab.py:85-98 | The release line starts `Mutex release error: ` if and only if the release failed. |
| Mutex.ReleaseResult | tabs/mutex_tab.py:79-98 | A held Windows mutex is released first. A remembered lock file is removed only if it exists. A failed removal reports the error. With nothing remembered, nothing is released. |
| Mutex.MutexTab.constructor | tabs/mutex_tab.py:13-14 | A new tab holds neither a lock file nor a handle. |
| Mutex.MutexTab.CreateMutex | tabs/mutex_tab.py:39-76 | A new lock file holds the process id and is remembered. A new handle is opened and remembered, replacing any earlier one. Every other outcome changes neither the files, the handles nor the remembered state. One line is logged, except for a blank name. |
| Mutex.MutexTab.ReleaseMutex | tabs/mutex_tab.py:78-98 | Releasing the mutex closes that handle and forgets it. Removing the lock file deletes exactly that path and forgets it. A failed removal keeps the path remembered. One line is always logged. |
| Mutex.CreateFresh | tabs/mutex_tab.py:60-65 | Off Windows, a name without `/` or NUL, of at most 237 bytes, whose lock file does not exist yet, with `/tmp` present, creates exactly that file. |
| Mutex.CreateNameTooLong | tabs/mutex_tab.py:60-74 | Off Windows, a name of more than 237 bytes ends in the error `[Errno 36] File name too long:` followed by the `repr()` of the lock path; as for every failed create, `Mutex.MutexTab.CreateMutex` then leaves the files unchanged. |
| Mutex.CreateExisting | tabs/mutex_tab.py:69-72 | Off Windows, when the lock path already exists the create reports "already exists". |
| Mutex.CreateThenRelease | tabs/mutex_tab.py:86-89 | Releasing right after a successful create removes that file. The file system is then as it was before the create. |
| Mutex.LockfileLifecycle | tabs/mutex_tab.py:39-98 | Create `test1`, create it again, then release twice. The second create reports "already exists" and leaves the file holding the first pid. The first release removes the file; the second has nothing to release. |
| Mutex.AbandonedLockfile | tabs/mutex_tab.py:60-64 | Create `a`, then `b`, then release. Only `b`'s lock file is removed; `a`'s stays on disk and is no longer remembered. |
| Mutex.LeakedHandle | tabs/mutex_tab.py:54-57 | On Windows, two creates and one release close only the second handle. The first stays open. |

## Left out

- The Tk user interface (dialogs, text widgets, timestamps on output lines) is left out. The dialogs are outcomes, and a tab's log holds the lines without timestamps.
- The threads the workers run on, and any interleaving between them, are not modelled.
- DNS, sockets, `urlopen`, `urlparse` and the Windows registry are foreign calls. Their answers are parameters.
- The application log file and its writer are left out; the tabs' lines are modelled, not the file.
- The files tab and the logs tab are outside this model.
- Text.ParseInt: accepts ASCII digits only. Python's `int()` also accepts other Unicode decimal digits.
- Text.ReprString: escapes only ASCII control characters. Python also escapes non-printable non-ASCII characters.
- The `Json` datatype has no floats. A store holding a number with a fraction or an exponent is not modelled, and neither is its `json.dumps` or `repr()`.
- JSON text syntax is not modelled. A store file holds either a loaded document or plain text, and plain text reads as malformed.
- Registry.FaultMessage: a JSON decoding error gets a fixed text instead of the decoder's message with its position. The texts of Windows errors are parameters.
- Host.Machine: does not require its files and directories to form a consistent tree, and does not model a path with a trailing `/`.
- Host.Machine: models permissions, symbolic links and path normalisation only as far as the existence of files and directories. File names are compared exactly; Windows' case-insensitive names are not modelled.
- Registry.HiveNamed: finds the seven `HKEY_` root keys. Any other `winreg` attribute named as a root key is not modelled.
- Json.Get: assumes object member names are distinct, as a loaded Python dict's keys are.
- Text.IntToString: `str()` refusing integers of more than 4300 digits is not modelled. Every integer the tabs print is shorter: a port `int()` accepted, an HTTP status, a length of at most 512, a process id.
- Host.Machine: an existing entry reached through a path of `PATH_MAX` bytes or more is not refused. The length limits are Linux's, and paths are encoded in UTF-8.
- Mutex.MutexTab.CreateMutex: a failure of the `os.write` or `os.close` after the exclusive create is not modelled. The ctypes errors of `CreateMutexW` other than a NULL handle are not modelled either.

## Findings

| source | as written | input that shows it | evidently intended | confidence | as-written member | corrected member |
|---|---|---|---|---|---|---|
| main.py:49 | `allow_external` is a `tk.BooleanVar`. The gates test `not self.app.allow_external` (tabs/network_tab.py:87, 111). A `BooleanVar` defines neither `__bool__` nor `__len__`, so it is always true and the gates never close. | option unticked; TCP to `8.8.8.8` port `53`, or HTTP GET `http://example.com/` | test the option's value, `self.app.allow_external.get()`, so that external targets are blocked by default | high, not executed | Network.TcpConnectAsWritten, Network.HttpGetAsWritten, Network.AsWrittenGatesAdmitExternal | Network.TcpConnect, Network.HttpGet |
