/**
 * The PcapWriter defined in source/reader.h: a write-only stream whose
 * open/closed state is whether its FILE pointer is NULL. The name "-" writes to
 * standard output.
 */
module StreamWriter {
  import opened Wrappers
  import opened Python
  import opened Native

  /** The only mode this writer opens files in. */
  const WriteMode := "wb"
  /** The name that stands for standard output, and its descriptor. */
  const StdoutName := "-"
  const StdoutFd := 1

  const BadArgsMsg := "Could not parse arguments to write() method"
  const NotBytesMsg := "write method requires a Bytes-like argument"

  function OpenFailedMsg(f: string): string { "Could not open file '" + f + "'" }
  function CloseFailedMsg(name: string): string { "Could not close file '" + name + "'" }
  function WriteClosedMsg(name: string): string { "Cannot perform write operation on closed file '" + name + "'" }

  /** The attributes with a setter. */
  datatype Attribute = FilenameAttr | ModeAttr | ClosedAttr

  class PcapWriter {
    var cFilename: Option<string>  // _c_filename
    var cMode: Option<string>      // _c_mode
    var filename: string           // the `filename` attribute
    var mode: string               // the `mode` attribute
    var fp: CFile?                 // fp; NULL means closed
    ghost var acquired: set<CFile> // every stream this object has opened

    /**
     * A non-NULL `fp` is open, and it is the only stream the object opened that
     * is still open.
     */
    ghost predicate Valid()
      reads this, fp, acquired
    {
      && (fp != null ==> fp.isOpen)
      && (forall f :: f in acquired && f.isOpen ==> f == fp)
      && mode == WriteMode
    }

    /** tp_new: no stream, an empty name, mode "wb". */
    constructor Alloc()
      ensures Valid() && fp == null && acquired == {}
      ensures filename == "" && mode == WriteMode && cFilename == None && cMode == None
    {
      cFilename, cMode := None, None;
      filename, mode := "", WriteMode;
      fp := null;
      acquired := {};
    }

    /**
     * PcapWriter_init(filename): "-" is opened with fdopen on descriptor 1, any
     * other name with fopen, always in mode "wb". A NULL stream raises SystemError
     * and changes no attribute; otherwise the stream and the name are stored.
     */
    method Init(arg: PyValue, openOk: bool, fd: int, io: Env) returns (err: Option<PyError>)
      modifies this
      ensures ParseStrArg(arg).None? ==> err == Some(ParseFailure) && unchanged(this)
      ensures ParseStrArg(arg).Some? ==>
        var f := ParseStrArg(arg).value;
        && cFilename == Some(f) && cMode == Some(WriteMode)
        && (if openOk then
              && err == None
              && fp != null && fresh(fp) && fp.isOpen && fp.mode == WriteMode
              && fp.origin == (if f == StdoutName then Descriptor(StdoutFd) else Path(f))
              && filename == f && mode == WriteMode && acquired == old(acquired) + {fp}
            else
              && err == Some(Raised(SystemError, OpenFailedMsg(f)))
              && fp == old(fp) && filename == old(filename) && mode == old(mode) && acquired == old(acquired))
      ensures old(Valid()) && old(fp) == null ==> Valid()
    {
      var parsed := ParseStrArg(arg);
      if parsed.None? {
        return Some(ParseFailure);
      }
      var f := parsed.value;
      cFilename := Some(f);
      cMode := Some(WriteMode);
      var file: CFile?;
      if f == StdoutName {
        file := io.Fdopen(StdoutFd, WriteMode, openOk);
      } else {
        file := io.Fopen(f, WriteMode, openOk, fd);
      }
      if file == null {
        return Some(Raised(SystemError, OpenFailedMsg(f)));
      }
      fp := file;
      acquired := acquired + {file};
      filename := f;
      mode := WriteMode;
      err := None;
    }

    /**
     * write(data): a closed object raises SystemError before its arguments are
     * looked at; a call without exactly one argument, or with one that is not
     * bytes, raises AttributeError; otherwise the bytes go to the stream and their
     * number is returned. A raising call makes no library call.
     */
    method Write(args: seq<PyValue>, io: Env) returns (r: Result<int>)
      modifies io
      ensures r.Ok? <==> fp != null && |args| == 1 && args[0].PyBytes?
      ensures r.Ok? ==> r.value == |args[0].bytes|
      ensures fp == null ==> r == Err(Raised(SystemError, WriteClosedMsg(filename)))
      ensures fp != null && |args| != 1 ==> r == Err(Raised(AttributeError, BadArgsMsg))
      ensures fp != null && |args| == 1 && !args[0].PyBytes? ==> r == Err(Raised(AttributeError, NotBytesMsg))
      ensures r.Ok? ==> io.faults == old(io.faults) + (if fp.isOpen then 0 else 1)
      ensures r.Err? ==> unchanged(io)
      ensures Valid() ==> io.faults == old(io.faults)
    {
      if fp == null {
        return Err(Raised(SystemError, WriteClosedMsg(filename)));
      }
      if |args| != 1 {
        return Err(Raised(AttributeError, BadArgsMsg));
      }
      var data := args[0];
      if !data.PyBytes? {
        return Err(Raised(AttributeError, NotBytesMsg));
      }
      var size := |data.bytes|;
      io.Fwrite(fp, size);
      r := Ok(size);
    }

    /**
     * close(), corrected: NULL `fp` means nothing to do. Otherwise the stream is
     * released and `fp` set to NULL even when fclose reports a failure, which is
     * still raised as SystemError.
     */
    method Close(ok: bool, io: Env) returns (err: Option<PyError>)
      requires Valid()
      modifies this, io, fp
      ensures Valid() && fp == null && io.faults == old(io.faults) && acquired == old(acquired)
      ensures filename == old(filename) && mode == old(mode) && cFilename == old(cFilename) && cMode == old(cMode)
      ensures old(fp) == null ==> err == None && unchanged(this, io)
      ensures old(fp) != null ==>
        && !old(fp).isOpen
        && err == (if ok then None else Some(Raised(SystemError, CloseFailedMsg(filename))))
    {
      if fp == null {
        return None;
      }
      var rc := io.Fclose(fp, ok);
      fp := null;
      if rc != 0 {
        return Some(Raised(SystemError, CloseFailedMsg(filename)));
      }
      err := None;
    }

    /**
     * close() as written: when fclose reports a failure `fp` keeps pointing at
     * the stream, although the stream has been released.
     */
    method CloseAsWritten(ok: bool, io: Env) returns (err: Option<PyError>)
      modifies this, io, fp
      ensures acquired == old(acquired)
      ensures filename == old(filename) && mode == old(mode) && cFilename == old(cFilename) && cMode == old(cMode)
      ensures old(fp) == null ==> err == None && unchanged(this, io)
      ensures old(fp) != null ==>
        && !old(fp).isOpen
        && io.faults == old(io.faults) + (if old(fp.isOpen) then 0 else 1)
        && (if old(fp.isOpen) && ok then fp == null && err == None
            else fp == old(fp) && err == Some(Raised(SystemError, CloseFailedMsg(filename))))
    {
      if fp == null {
        return None;
      }
      var rc := io.Fclose(fp, ok);
      if rc != 0 {
        return Some(Raised(SystemError, CloseFailedMsg(filename)));
      }
      fp := null;
      err := None;
    }

    /**
     * name(): the `filename` attribute as a str. Its AttributeError branch needs a
     * NULL `filename`, which no object here can have.
     */
    function Name(): (r: PyValue)
      reads this
      ensures r.PyStr? && r.s == filename
    {
      PyStr(filename)
    }

    /** The `closed` attribute: whether `fp` is NULL. */
    function Closed(): (r: bool)
      reads this, fp, acquired
      ensures Valid() && !r ==> fp != null && fp.isOpen
    {
      fp == null
    }

    /** The setters of `filename`, `mode` and `closed` always raise and change nothing. */
    method SetAttribute(attr: Attribute, value: PyValue) returns (err: PyError)
      ensures attr == FilenameAttr ==> err == Raised(TypeError, "filename attribute can only be set on initialization")
      ensures attr == ModeAttr ==> err == Raised(TypeError, "mode attribute can only be set on initialization")
      ensures attr == ClosedAttr ==> err == Raised(AttributeError, "closed attribute is read-only")
    {
      match attr
      case FilenameAttr => err := Raised(TypeError, "filename attribute can only be set on initialization");
      case ModeAttr => err := Raised(TypeError, "mode attribute can only be set on initialization");
      case ClosedAttr => err := Raised(AttributeError, "closed attribute is read-only");
    }

    /**
     * tp_dealloc: fcloses the stream only when `fp` is not NULL. For a valid
     * object this calls no forbidden function and leaves every stream it opened
     * released.
     */
    method Dealloc(ok: bool, io: Env)
      modifies io, fp
      ensures old(fp) == null ==> unchanged(io)
      ensures fp != null ==> !fp.isOpen && io.faults == old(io.faults) + (if old(fp.isOpen) then 0 else 1)
      ensures old(Valid()) ==> io.faults == old(io.faults) && forall f :: f in acquired ==> !f.isOpen
    {
      if fp != null {
        var _ := io.Fclose(fp, ok);
      }
    }
  }

  /**
   * Writing to standard output: "-" is opened on descriptor 1, a write returns
   * the byte count, and after close a write raises SystemError.
   */
  method StdoutScenario(io: Env) returns (w: PcapWriter, n: Result<int>, late: Result<int>)
    modifies io
    ensures w.fp == null && w.Closed() && w.Name() == PyStr("-")
    ensures n == Ok(3) && late == Err(Raised(SystemError, WriteClosedMsg("-")))
    ensures io.faults == old(io.faults)
  {
    w := new PcapWriter.Alloc();
    var err := w.Init(PyStr(StdoutName), true, 0, io);
    assert w.fp.origin == Descriptor(StdoutFd);
    n := w.Write([PyBytes([1, 2, 3])], io);
    err := w.Close(true, io);
    late := w.Write([PyBytes([4])], io);
  }

  /**
   * As written, a close whose fclose fails keeps `fp` set, so a later write and
   * the final dealloc both use the released stream.
   */
  method FailedCloseAsWritten(io: Env) returns (w: PcapWriter, n: Result<int>)
    modifies io
    ensures n == Ok(1) && io.faults == old(io.faults) + 2
  {
    w := new PcapWriter.Alloc();
    var err := w.Init(PyStr("out.pcap"), true, 3, io);
    err := w.CloseAsWritten(false, io);
    assert !w.Closed() && err.Some?;
    n := w.Write([PyBytes([0])], io);
    w.Dealloc(true, io);
  }

  /** Corrected, the same calls raise on close and on the late write, and release nothing twice. */
  method FailedCloseCorrected(io: Env) returns (w: PcapWriter, n: Result<int>)
    modifies io
    ensures n == Err(Raised(SystemError, WriteClosedMsg("out.pcap"))) && io.faults == old(io.faults)
  {
    w := new PcapWriter.Alloc();
    var err := w.Init(PyStr("out.pcap"), true, 3, io);
    err := w.Close(false, io);
    n := w.Write([PyBytes([0])], io);
    w.Dealloc(true, io);
  }
}
