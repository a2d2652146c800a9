# pypcap, modelled in Dafny

pypcap is a CPython extension module written in C over libpcap. This project
models its core and proves properties of that model:

- **Two `PcapWriter` variants.** Each is a write-only stream over a stdio `FILE`.
  - The variant in `source/writer.h` keeps an explicit `_closed` flag.
  - The variant in `source/reader.h` treats a NULL `fp` as closed. It writes byte
    buffers and maps the name `-` to standard output.
- **`PcapReader`** (`experimental/reader.h`): an offline capture reader. It
  holds the stream and the libpcap context (`pcap_t`) opened on it. It counts
  records, reports the descriptor and releases both handles.
- **`PcapCapture`** (`source/capture.h`): the constructor of a live-capture
  configuration. It converts and validates its arguments, fills in defaults and
  fixes the snap length at 65535.
- **Device enumeration** (`source/pypcap.c`): `find_all_devs` turns libpcap's
  linked lists of interfaces and addresses into a dict of interface records.
- **`PyUnicode_ToString`** (`source/util.c`): the ASCII conversion the constructors
  share.

Files:

- `wrappers.dfy` and `python.dfy`: the Python values, exceptions and
  insertion-ordered dicts the extension produces.
- `native.dfy`: stdio and libpcap as abstract operations. The environment decides
  whether each call succeeds, and this is passed in as a parameter.
  - A call whose argument the library forbids (a NULL stream, or a stream or
    context already released) is counted in `Env.faults`.
  - "A handle is never released twice" is stated as "`faults` does not change".
  - Every object keeps a ghost set `acquired` of the streams it has opened.
  - "Nothing leaks" is stated as "every acquired stream is closed after dealloc".
- `util.dfy`, `flag_writer.dfy`, `stream_writer.dfy`, `offline_reader.dfy`,
  `capture.dfy`, `devices.dfy`: one module per core source file.

The code acts on objects in place, so each Python type is a Dafny `class`. Its
fields mirror the C struct and its methods mirror the type's slots:

- `tp_new` → `Alloc`
- `tp_init` → `Init`
- `tp_dealloc` → `Dealloc`
- setters → `SetAttribute`

Device enumeration is pure construction of values. It is modelled with functions,
plus methods where the C code fills lists in loops.

## Model

| member | source | states |
|---|---|---|
| Util.ToCString | source/util.c:4-30 | Fails with AttributeError exactly when the object is not a str or has a non-ASCII character. On success the buffer holds the same characters, in order. |
| Util.CView | source/util.c:19-29 | A C reader of a char buffer sees the longest NUL-free prefix: a prefix with no NUL, followed by a NUL or by the end. |
| Util.ToCStringSeenWhole | source/util.c:19-29 | A C consumer of the converted name sees all of it exactly when the str has no NUL. Otherwise it sees a proper prefix. |
| FlagWriter.PcapWriter.Alloc | source/writer.h:19-38 | Corrected `tp_new`: empty name, mode "wb", no stream, and the object starts closed, so the invariant holds. |
| FlagWriter.PcapWriter.AllocAsWritten | source/writer.h:19-38 | `tp_new` as written: the zero-filled `_closed` reads 0 with no stream, so the invariant fails. |
| FlagWriter.PcapWriter.Init | source/writer.h:41-92 | A parse failure changes nothing. Otherwise the object is marked closed and the file is opened "wb". Success stores a fresh open stream and the name. A failed fopen raises SystemError "Could not open file '<f>'" and leaves the object closed. Starting closed, the invariant is kept. |
| FlagWriter.PcapWriter.Close | source/writer.h:106-120 | Corrected close: a closed writer is untouched. An open one releases its stream exactly once and ends closed, even when fclose fails. That failure still raises SystemError "Could not close file '<name>'". No forbidden call is made. |
| FlagWriter.PcapWriter.CloseAsWritten | source/writer.h:106-120 | Close as written: a failed fclose raises but leaves `_closed` at 0 after the stream has been released. |
| FlagWriter.PcapWriter.Name | source/writer.h:94-103 | `name()` returns the `filename` attribute as a str. |
| FlagWriter.PcapWriter.Closed | source/writer.h:179-183 | The `closed` attribute. For a valid object, "not closed" means an open stream is held. |
| FlagWriter.PcapWriter.SetAttribute | source/writer.h:142-189 | The filename and mode setters raise TypeError "... can only be set on initialization". The closed setter raises AttributeError "closed attribute is read-only". |
| FlagWriter.PcapWriter.Dealloc | source/writer.h:215-229 | fclose is called only when `_closed` is 0. For a valid object no forbidden call is made and every acquired stream ends released. |
| FlagWriter.CloseTwiceScenario | test/test_writer.py:29-36 | Open "foo" and close twice: name, `name()` and mode survive, the writer reads closed, and the second close is a no-op. |
| FlagWriter.FailedCloseAsWritten | source/writer.h:109-118 | As written, one failed close followed by close and dealloc makes two fclose calls on a released stream. |
| FlagWriter.FailedCloseCorrected | source/writer.h:109-118 | Corrected, the same calls raise once, end closed and make no forbidden call. |
| FlagWriter.UnparsedWriterAsWritten | source/writer.h:50-59 | As written, `PcapWriter(42)` followed by dealloc calls fclose(NULL). |
| FlagWriter.UnparsedWriterCorrected | source/writer.h:50-59 | Corrected, the same object is released with no library call. |
| StreamWriter.PcapWriter.Alloc | source/reader.h:17-37 | `tp_new`: empty name, mode "wb", no stream. |
| StreamWriter.PcapWriter.Init | source/reader.h:39-91 | "-" is opened by fdopen on descriptor 1 and any other name by fopen, both "wb". A NULL stream raises SystemError and changes no attribute. Success stores the fresh open stream and the name. |
| StreamWriter.PcapWriter.Name | source/reader.h:93-102 | `name()` returns the `filename` attribute as a str. |
| StreamWriter.PcapWriter.Write | source/reader.h:104-130 | Succeeds exactly when open with one bytes argument, and returns its length. Error order: closed (SystemError), then argument count, then type (AttributeError). A raising call makes no library call. For a valid writer no forbidden call is made. |
| StreamWriter.PcapWriter.Close | source/reader.h:150-165 | Corrected close: NULL `fp` is a no-op. Otherwise the stream is released once and `fp` becomes NULL even when fclose fails, which still raises SystemError. |
| StreamWriter.PcapWriter.CloseAsWritten | source/reader.h:150-165 | Close as written: a failed fclose keeps `fp` set after the stream has been released. |
| StreamWriter.PcapWriter.Closed | source/reader.h:226-231 | The `closed` attribute is whether `fp` is NULL. For a valid object, "not closed" means an open stream is held. |
| StreamWriter.PcapWriter.SetAttribute | source/reader.h:189-237 | Each setter raises its own error message and changes nothing. |
| StreamWriter.PcapWriter.Dealloc | source/reader.h:263-277 | fclose is called only on a non-NULL `fp`. For a valid object no forbidden call is made and every acquired stream ends released. |
| StreamWriter.StdoutScenario | source/reader.h:56-66 | Writing 3 bytes to "-" returns 3 and uses descriptor 1. After close a write raises SystemError naming "-". |
| StreamWriter.FailedCloseAsWritten | source/reader.h:154-163 | As written, a failed close is followed by a write that still reports success and by a dealloc. Both use the released stream, for two forbidden calls. |
| StreamWriter.FailedCloseCorrected | source/reader.h:154-163 | Corrected, after the failed close, writes raise SystemError and no forbidden call is made. |
| OfflineReader.PcapReader.Alloc | experimental/reader.h:19-26 | `tp_new` zero-fills: no stream, no context, no name. |
| OfflineReader.PcapReader.Init | experimental/reader.h:28-80 | Corrected init, with the exceptions in source order: non-str (ValueError), non-ASCII (ValueError), fopen "rb" failure (SystemError), not a capture (SystemError, after the stream is closed again). It succeeds exactly when all four pass, storing a fresh stream opened on the name's C view, its context and the name. The invariant holds and no forbidden call is made. |
| OfflineReader.PcapReader.InitAsWritten | experimental/reader.h:28-80 | Init as written: when the file is not a capture, the open stream stays stored in `fp` while `_pcap` stays NULL. |
| OfflineReader.PcapReader.Close | experimental/reader.h:82-94 | A NULL `fp` is a no-op. Otherwise the context, and with it the stream, is released once and both pointers become NULL. |
| OfflineReader.PcapReader.Fileno | experimental/reader.h:96-107 | Returns the held stream's descriptor exactly when `fp` is set. Otherwise raises SystemError "Cannot obtain fileno, file is already closed." |
| OfflineReader.PcapReader.Read | experimental/reader.h:109-126 | With a context, returns the number of records it still held and leaves it drained. Without one, raises SystemError. The invariant is kept. |
| OfflineReader.PcapReader.Closed | experimental/reader.h:142-148 | The `closed` attribute. For a valid object it is true exactly when no context is held. |
| OfflineReader.PcapReader.SetAttribute | experimental/reader.h:150-168 | The closed and filename setters raise AttributeError "... is read-only". |
| OfflineReader.PcapReader.Dealloc | experimental/reader.h:191-208 | Releases the context only when `_pcap` is set. For a valid object every opened stream ends released, with no forbidden call. |
| OfflineReader.DrainScenario | experimental/reader.h:82-126 | A five-record file: fileno 3, first read 5, second read 0. After two closes the reader is closed and read raises. |
| OfflineReader.NotACaptureAsWritten | experimental/reader.h:58-68 | As written, a file that is not a capture is still open after the failed reader is released. |
| OfflineReader.NotACaptureCorrected | experimental/reader.h:58-68 | Corrected, the same failure leaves every opened stream released. |
| Capture.ChecksPassed | source/capture.h:73-135 | The number of checks passed, in source order, before the first failure. All four pass exactly when the arguments are acceptable. |
| Capture.InitError | source/capture.h:73-135 | init raises nothing exactly when the name and filename convert and `max_packets` and `timeout_ms` are positive. Otherwise it raises a ValueError naming the first failing check, so an invalid `max_packets` is reported whatever the timeout. |
| Capture.PcapCapture.Alloc | source/capture.h:37-44 | `tp_alloc` zero-fills every field. |
| Capture.PcapCapture.Init | source/capture.h:46-164 | Raises InitError. Each check that passed leaves its fields assigned even when a later one fails, and fields of checks not reached keep their values. Success stores the arguments, promiscuous 0 and timeout 1000 when omitted, promisc as a bool, and packet length 65535. |
| Capture.PcapCapture.SetAttribute | source/capture.h:185-254 | Every setter raises AttributeError "<attr> attribute is read-only". The packet_length setter's message says "packet_len". |
| Capture.CreateScenario | test/test_capture.py:7-19 | `PcapCapture("lo", "foo.pcap", 10000)` gives promisc False, timeout_ms 1000 and packet length 65535. |
| Capture.PartialInitScenario | source/capture.h:73-107 | A zero `max_packets` raises its ValueError after the interface name and output filename are already stored. |
| Devices.LenAddresses | source/pypcap.c:16-25 | Walking the list one node per step counts exactly its nodes, 0 for an empty list. |
| Devices.SockaddrValue | source/pypcap.c:27-46 | A str exactly when sockaddr_addr returns 0: the host buffer up to its NUL. None otherwise. |
| Devices.BuildAddr | source/pypcap.c:48-96 | "af" and "addr" are present exactly when `addr` is non-NULL, and "netmask", "broadaddr", "dstaddr" exactly when their pointer is. Each holds the resolved address. No other key. |
| Devices.AsCInt | source/pypcap.c:102-107 | The unsigned flags word read as a C int: in the int range and congruent to the word modulo 2^32. |
| Devices.StrOrNone | source/pypcap.c:102-107 | The "s" conversion gives None exactly for a NULL description. |
| Devices.AddressList | source/pypcap.c:109-125 | One address record per address, in list order. |
| Devices.FlagNames | source/pypcap.c:133-144 | The flag list has `pf.size` entries, at most PCAP_FLAG_MAX = 4. |
| Devices.InterfaceRecordShape | source/pypcap.c:98-157 | An interface record is a well-formed dict with keys name, description, flags_int, addresses, flags in that order. It holds one address record per address and at most 4 flag names. |
| Devices.BuildInterface | source/pypcap.c:98-157 | The loops that fill the address and flag lists build exactly the interface record. |
| Devices.Fill | source/pypcap.c:180-186 | Storing a sequence of (key, value) pairs gives a well-formed dict keyed by exactly those keys. |
| Devices.FillLastStoreWins | source/pypcap.c:182-186 | A key's value is the one from its last store. |
| Devices.FillDistinctInOrder | source/pypcap.c:182-186 | With distinct keys, the dict's order is the store order. |
| Devices.FillValuesStored | source/pypcap.c:182-186 | Every value in the dict was stored under its key. |
| Devices.FindAllDevs | source/pypcap.c:159-192 | A -1 from the enumeration raises SystemError carrying the error buffer's message. Otherwise the loop returns the directory of the enumerated interfaces. |
| Devices.DirectoryKeys | source/pypcap.c:180-186 | The directory is well formed and keyed by exactly the enumerated names. It is empty for an empty enumeration. |
| Devices.LastWriteWins | source/pypcap.c:182-186 | A name maps to the record of the last interface enumerated under it. |
| Devices.DistinctNamesInOrder | source/pypcap.c:182-186 | With distinct names, the keys appear in enumeration order. |
| Devices.EntryOrigin | source/pypcap.c:182-186 | Every entry is the record of an interface enumerated under that key. |
| Devices.EntriesAreRecords | test/test_devices.py:11-16 | Every entry is a well-formed dict whose keys are exactly name, description, flags_int, addresses and flags, in that order, and its "name" is the key it is stored under. |

## Left out

- Memory allocation never fails in the model. The `PyErr_NoMemory` and NULL-result
  branches of Python object creation are not modelled, including the error
  returns of `Py_Build_Interface` (source/pypcap.c:112-154) and `Py_Build_Addr`
  (source/pypcap.c:53, 90-93).
- Reference counting, the GC traverse/clear slots and module/type registration in
  `PyInit_pypcap` are host plumbing. Python values are plain values here.
- Argument marshalling is reduced to its outcome. `"s"` is modelled by
  `ParseStrArg`, `"O"` by taking any value, and `"OOi|ii"` by already-parsed C ints.
  A parse failure of the capture arguments is not modelled.
- stdio and libpcap are abstract. The model does not cover the bytes written, the
  pcap file format, timestamp precision or the contents of packet records beyond
  their count. sockaddr_addr, af_to_string and pcap_flags are parameters:
  source/util.h declares them, but their definitions are not part of this model.
  pcap_flags is assumed to return `size` at most PCAP_FLAG_MAX, as its struct
  implies.
- `PcapWriter_getfileno` (source/reader.h:132-148) is a thin wrapper over the
  host's descriptor lookup and is not modelled.
- The getters that only return a stored object are not modelled. The `closed`
  getters are: `Closed`.
- `find_all_devs` leaks the `malloc`ed list head (source/pypcap.c:167). Only the
  value returned is modelled.
- The stack `errbuf` left dangling in the reader (experimental/reader.h:61-62) is
  not modelled, nor is the bogus `T_OBJECT_EX` member exposing `_pcap`
  (experimental/reader.h:130).
- Devices.LenAddresses: the count is an unbounded `nat`. The model does not cover
  the truncation of the `Py_ssize_t` count to `int` at source/pypcap.c:110, which
  needs more than 2^31 addresses.
- Devices.FindAllDevs: interface names are always non-NULL. Duplicate names are
  allowed and handled by LastWriteWins.
- OfflineReader.PcapReader.Init requires an object holding no stream. Re-running
  `__init__` on an open reader overwrites `fp` and `_pcap` without releasing them,
  and is not modelled.
- FlagWriter.PcapWriter.Init and StreamWriter.PcapWriter.Init: re-running
  `__init__` on an open writer overwrites the stream without closing it. The model
  reproduces this but proves the invariant only from a writer without a stream.
- Util.ToCString: the failure branch of `PyBytes_AsString` (source/util.c:20-23)
  cannot be taken for the bytes object just created, so it is not modelled. The
  reference leaked on the error paths is not modelled either.
- Util.ToCString: the returned `char *` points into the ASCII bytes object made at
  source/util.c:13, and that object's only reference is dropped at source/util.c:27
  before the pointer is returned. The pointer therefore refers to freed memory, and
  the callers that store it (source/capture.h:80, 95) or pass it to fopen
  (experimental/reader.h:46-53) read freed memory. The model treats the buffer as a
  lasting value with the str's characters. The same holds for `cMode` in both
  writers: `_c_mode` points at the `m` array on `PcapWriter_init`'s stack
  (source/writer.h:45, 55; source/reader.h:44, 54), which is gone once init
  returns, yet the model keeps it as `Some("wb")`. Object lifetimes and dangling
  pointers are not modelled.
- The statements after the unconditional `return -1` in the filename setters
  (source/writer.h:147-163, source/reader.h:194-210) are dead code.
- The reader test builds a `PcapReader` from a file object (test/test_reader.py:19).
  The code rejects anything but a str with ValueError, and the model follows the
  code.

## Findings

| source | as written | input that shows it | evidently intended | confidence | as-written member | corrected member |
|---|---|---|---|---|---|---|
| source/writer.h:109-118 | When fclose returns non-zero, `_closed` stays 0, although C releases the stream whatever fclose returns. | A writer whose fclose fails, then `close()` again or dealloc: fclose on a released stream. | Mark the writer closed whenever fclose was called, and still raise. | medium, not executed | FlagWriter.FailedCloseAsWritten | FlagWriter.PcapWriter.Close |
| source/reader.h:154-163 | When fclose returns non-zero, `fp` keeps the released stream. | A writer whose fclose fails, then `write(b"x")`, `close()` or dealloc: each uses the released stream. | Set `fp` to NULL whenever fclose was called, and still raise. | medium, not executed | StreamWriter.FailedCloseAsWritten | StreamWriter.PcapWriter.Close |
| source/writer.h:50-59 | A parse failure returns before `_closed = 1`, so the zero-filled `_closed` is 0 while `fp` is NULL. | `PcapWriter(42)`: the dealloc calls fclose(NULL). | Start closed in `tp_new`, or set `_closed` before parsing. | high, not executed | FlagWriter.UnparsedWriterAsWritten | FlagWriter.PcapWriter.Alloc |
| experimental/reader.h:58-68 | When the file is not a capture, the open stream stays in `fp` and `_pcap` stays NULL. Dealloc looks only at `_pcap`. | `PcapReader("notes.txt")` on a readable non-pcap file: the stream is never closed. | fclose the stream before raising. | high, not executed | OfflineReader.NotACaptureAsWritten | OfflineReader.PcapReader.Init |
