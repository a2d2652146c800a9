/**
 * The PcapWriter of source/writer.h: a write-only stream whose open/closed state
 * is kept in the `_closed` flag next to the FILE pointer.
 */
module FlagWriter {
  import opened Wrappers
  import opened Python
  import opened Native

  /** The only mode this writer opens files in. */
  const WriteMode := "wb"

  function OpenFailedMsg(f: string): string { "Could not open file '" + f + "'" }
  function CloseFailedMsg(name: string): string { "Could not close file '" + name + "'" }

  /** The attributes with a setter. */
  datatype Attribute = FilenameAttr | ModeAttr | ClosedAttr

  class PcapWriter {
    var cFilename: Option<string>  // _c_filename
    var cMode: Option<string>      // _c_mode
    var filename: string           // the `filename` attribute
    var mode: string               // the `mode` attribute
    var closed: int                // _closed
    var fp: CFile?                 // fp
    ghost var acquired: set<CFile>   // every stream this object has acquired

    /**
     * While `_closed` is 0 the object holds an open stream, and it is the only
     * stream the object acquired that is still open.
     */
    ghost predicate Valid()
      reads this, fp, acquired
    {
      && (closed == 0 || closed == 1)
      && (closed == 0 ==> fp != null && fp.isOpen)
      && (forall f :: f in acquired && f.isOpen ==> f == fp && closed == 0)
      && mode == WriteMode
    }

    /**
     * tp_new, corrected: the object starts closed, so that releasing an object
     * whose initialisation stopped early calls no library function.
     */
    constructor Alloc()
      ensures Valid() && closed == 1 && fp == null && acquired == {}
      ensures filename == "" && mode == WriteMode && cFilename == None && cMode == None
    {
      cFilename, cMode := None, None;
      filename, mode := "", WriteMode;
      closed, fp := 1, null;
      acquired := {};
    }

    /**
     * tp_new as written: tp_alloc zero-fills the object, so `_closed` reads 0
     * although no stream is held.
     */
    constructor AllocAsWritten()
      ensures closed == 0 && fp == null && acquired == {} && !Valid()
      ensures filename == "" && mode == WriteMode && cFilename == None && cMode == None
    {
      cFilename, cMode := None, None;
      filename, mode := "", WriteMode;
      closed, fp := 0, null;
      acquired := {};
    }

    /**
     * PcapWriter_init(filename): marks the object closed, opens the file for
     * writing and, on success, marks it open and records the name. A failed
     * fopen raises SystemError and leaves the object closed.
     */
    method Init(arg: PyValue, openOk: bool, fd: int, io: Env) returns (err: Option<PyError>)
      modifies this
      ensures ParseStrArg(arg).None? ==> err == Some(ParseFailure) && unchanged(this)
      ensures ParseStrArg(arg).Some? ==>
        var f := ParseStrArg(arg).value;
        && cFilename == Some(f) && cMode == Some(WriteMode)
        && (if openOk then
              && err == None && closed == 0
              && fp != null && fresh(fp) && fp.isOpen && fp.origin == Path(f) && fp.mode == WriteMode
              && filename == f && mode == WriteMode && acquired == old(acquired) + {fp}
            else
              && err == Some(Raised(SystemError, OpenFailedMsg(f))) && closed == 1
              && fp == old(fp) && filename == old(filename) && mode == old(mode) && acquired == old(acquired))
      ensures old(Valid()) && old(closed) == 1 ==> Valid()
    {
      var parsed := ParseStrArg(arg);
      if parsed.None? {
        return Some(ParseFailure);
      }
      var f := parsed.value;
      cFilename := Some(f);
      cMode := Some(WriteMode);
      closed := 1;
      var file := io.Fopen(f, WriteMode, openOk, fd);
      if file == null {
        return Some(Raised(SystemError, OpenFailedMsg(f)));
      }
      closed := 0;
      fp := file;
      acquired := acquired + {file};
      filename := f;
      mode := WriteMode;
      err := None;
    }

    /**
     * close(), corrected: a closed object is left alone. Otherwise the stream is
     * released and the object marked closed even when fclose reports a failure,
     * which is still raised as SystemError. Only the closed state changes.
     */
    method Close(ok: bool, io: Env) returns (err: Option<PyError>)
      requires Valid()
      modifies this, io, fp
      ensures Valid() && closed == 1 && io.faults == old(io.faults)
      ensures fp == old(fp) && acquired == old(acquired)
      ensures filename == old(filename) && mode == old(mode) && cFilename == old(cFilename) && cMode == old(cMode)
      ensures old(closed) != 0 ==> err == None && unchanged(this, io) && (fp != null ==> unchanged(fp))
      ensures old(closed) == 0 ==>
        && fp != null && !fp.isOpen
        && err == (if ok then None else Some(Raised(SystemError, CloseFailedMsg(filename))))
    {
      if closed != 0 {
        return None;
      }
      var rc := io.Fclose(fp, ok);
      closed := 1;
      if rc != 0 {
        return Some(Raised(SystemError, CloseFailedMsg(filename)));
      }
      err := None;
    }

    /**
     * close() as written: when fclose reports a failure `_closed` stays 0,
     * although the stream has been released.
     */
    method CloseAsWritten(ok: bool, io: Env) returns (err: Option<PyError>)
      modifies this, io, fp
      ensures fp == old(fp) && acquired == old(acquired)
      ensures filename == old(filename) && mode == old(mode) && cFilename == old(cFilename) && cMode == old(cMode)
      ensures old(closed) != 0 ==> err == None && unchanged(this, io) && (fp != null ==> unchanged(fp))
      ensures old(closed) == 0 ==>
        && (fp != null ==> !fp.isOpen)
        && io.faults == old(io.faults) + (if fp != null && old(fp.isOpen) then 0 else 1)
        && (if fp != null && old(fp.isOpen) && ok then closed == 1 && err == None
            else closed == 0 && err == Some(Raised(SystemError, CloseFailedMsg(filename))))
    {
      if closed != 0 {
        return None;
      }
      var rc := io.Fclose(fp, ok);
      if rc != 0 {
        return Some(Raised(SystemError, CloseFailedMsg(filename)));
      }
      closed := 1;
      err := None;
    }

    /**
     * name(): the `filename` attribute as a str. Its AttributeError branch needs a
     * NULL `filename`, which no object here can have.
     */
    function Name(): (r: PyValue)
      reads this
      ensures r.PyStr? && r.s == filename
    {
      PyStr(filename)
    }

    /** The `closed` attribute: `_closed` read as a bool. */
    function Closed(): (r: bool)
      reads this, fp, acquired
      ensures Valid() && !r ==> fp != null && fp.isOpen
    {
      closed != 0
    }

    /** The setters of `filename`, `mode` and `closed` always raise and change nothing. */
    method SetAttribute(attr: Attribute, value: PyValue) returns (err: PyError)
      ensures attr == FilenameAttr ==> err == Raised(TypeError, "filename attribute can only be set on initialization")
      ensures attr == ModeAttr ==> err == Raised(TypeError, "mode attribute can only be set on initialization")
      ensures attr == ClosedAttr ==> err == Raised(AttributeError, "closed attribute is read-only")
    {
      match attr
      case FilenameAttr => err := Raised(TypeError, "filename attribute can only be set on initialization");
      case ModeAttr => err := Raised(TypeError, "mode attribute can only be set on initialization");
      case ClosedAttr => err := Raised(AttributeError, "closed attribute is read-only");
    }

    /**
     * tp_dealloc: fcloses the stream only when `_closed` is 0. For a valid object
     * this calls no forbidden function and leaves every stream it acquired released.
     */
    method Dealloc(ok: bool, io: Env)
      modifies io, fp
      ensures old(closed) != 0 ==> unchanged(io) && (fp != null ==> unchanged(fp))
      ensures old(closed) == 0 ==>
        && (fp != null ==> !fp.isOpen)
        && io.faults == old(io.faults) + (if fp != null && old(fp.isOpen) then 0 else 1)
      ensures old(Valid()) ==> io.faults == old(io.faults) && forall f :: f in acquired ==> !f.isOpen
    {
      if closed == 0 {
        var _ := io.Fclose(fp, ok);
      }
    }
  }

  /**
   * The writer test's lifecycle: open "foo", close it twice; the name and mode
   * survive, the object reads closed, and the second close does nothing.
   */
  method CloseTwiceScenario(io: Env) returns (w: PcapWriter, second: Option<PyError>)
    modifies io
    ensures w.filename == "foo" && w.Name() == PyStr("foo") && w.mode == WriteMode && w.Closed() && second == None
    ensures io.faults == old(io.faults)
  {
    w := new PcapWriter.Alloc();
    var err := w.Init(PyStr("foo"), true, 3, io);
    assert !w.Closed();
    err := w.Close(true, io);
    second := w.Close(true, io);
  }

  /**
   * As written, a close whose fclose fails keeps the object open, so the next
   * close and the final dealloc each call fclose on the released stream.
   */
  method FailedCloseAsWritten(io: Env) returns (w: PcapWriter)
    modifies io
    ensures io.faults == old(io.faults) + 2
  {
    w := new PcapWriter.Alloc();
    var err := w.Init(PyStr("foo"), true, 3, io);
    err := w.CloseAsWritten(false, io);
    assert !w.Closed() && err.Some?;
    err := w.CloseAsWritten(true, io);
    w.Dealloc(true, io);
  }

  /** Corrected, the same calls release the stream once and raise once. */
  method FailedCloseCorrected(io: Env) returns (w: PcapWriter, first: Option<PyError>)
    modifies io
    ensures io.faults == old(io.faults) && first.Some? && w.Closed()
  {
    w := new PcapWriter.Alloc();
    var err := w.Init(PyStr("foo"), true, 3, io);
    first := w.Close(false, io);
    err := w.Close(true, io);
    w.Dealloc(true, io);
  }

  /**
   * As written, PcapWriter(42) fails to parse its argument before `_closed` is
   * set, and the dealloc of the zero-filled object calls fclose(NULL).
   */
  method UnparsedWriterAsWritten(io: Env) returns (w: PcapWriter)
    modifies io
    ensures io.faults == old(io.faults) + 1
  {
    w := new PcapWriter.AllocAsWritten();
    var err := w.Init(PyInt(42), true, 3, io);
    w.Dealloc(true, io);
  }

  /** Corrected, the same object is released without any library call. */
  method UnparsedWriterCorrected(io: Env) returns (w: PcapWriter)
    modifies io
    ensures io.faults == old(io.faults) && w.Closed()
  {
    w := new PcapWriter.Alloc();
    var err := w.Init(PyInt(42), true, 3, io);
    w.Dealloc(true, io);
  }
}
