/**
 * The PcapReader of experimental/reader.h: a read-only stream holding a FILE
 * pointer and the capture context opened on it. The context owns the stream, so
 * releasing the context releases both.
 */
module OfflineReader {
  import opened Wrappers
  import opened Python
  import opened Native
  import opened Util

  /** The mode the file is opened in. */
  const ReadMode := "rb"

  const NotStringMsg := "Argument 'filename' must be a string"
  const NotConvertibleMsg := "Could not convert filename to a c string"
  const OpenFailedMsg := "Could not open file object for reading"
  const PcapFailedMsg := "Could not create pcap reader for file object"
  const FilenoClosedMsg := "Cannot obtain fileno, file is already closed."
  const ReadClosedMsg := "Cannot read; pcap reader is already closed."

  /** The attributes with a setter. */
  datatype Attribute = ClosedAttr | FilenameAttr

  class PcapReader {
    var filename: Option<PyValue>  // filename; NULL until an initialisation succeeds
    var fp: CFile?                 // fp
    var pcap: Pcap?                // _pcap
    ghost var acquired: set<CFile> // every stream this object has opened

    /**
     * The stream and the context are held together or not at all; a held context
     * is open and owns the held stream, which is the only stream the object opened
     * that is still open.
     */
    ghost predicate Valid()
      reads this, fp, pcap, acquired
    {
      && (fp == null <==> pcap == null)
      && (pcap != null ==> pcap.isOpen && pcap.file == fp && fp.isOpen)
      && (forall f :: f in acquired && f.isOpen ==> f == fp)
    }

    /** tp_new: tp_alloc zero-fills, so nothing is held. */
    constructor Alloc()
      ensures Valid() && fp == null && pcap == null && filename == None && acquired == {}
    {
      filename, fp, pcap := None, null, null;
      acquired := {};
    }

    /**
     * PcapReader_init(filename), corrected: a non-str raises ValueError before any
     * file is touched, so does a name that is not ASCII; a failed fopen("rb")
     * raises SystemError; a file that holds no readable capture is closed again
     * before SystemError is raised. On success the stream, its context and the
     * name are stored.
     */
    method Init(arg: PyValue, fopenOk: bool, fd: int, pcapOk: bool, packets: seq<PacketHeader>, io: Env)
      returns (err: Option<PyError>)
      requires Valid() && fp == null
      modifies this, io
      ensures Valid() && io.faults == old(io.faults)
      ensures acquired >= old(acquired) && (ToCString(arg).Ok? && fopenOk ==> acquired != old(acquired))
      ensures err == None <==> ToCString(arg).Ok? && fopenOk && pcapOk
      ensures !arg.PyStr? ==> err == Some(Raised(ValueError, NotStringMsg)) && unchanged(this)
      ensures arg.PyStr? && ToCString(arg).Err? ==> err == Some(Raised(ValueError, NotConvertibleMsg)) && unchanged(this)
      ensures ToCString(arg).Ok? && !fopenOk ==> err == Some(Raised(SystemError, OpenFailedMsg)) && unchanged(this)
      ensures ToCString(arg).Ok? && fopenOk && !pcapOk ==> err == Some(Raised(SystemError, PcapFailedMsg))
      ensures err != None ==> fp == null && pcap == null && filename == old(filename)
      ensures err == None ==>
        && fp != null && fresh(fp) && fp.origin == Path(CView(arg.s)) && fp.mode == ReadMode && fp.fd == fd
        && pcap != null && fresh(pcap) && pcap.remaining == packets
        && filename == Some(arg)
    {
      if !arg.PyStr? {
        return Some(Raised(ValueError, NotStringMsg));
      }
      var converted := ToCString(arg);
      if converted.Err? {
        return Some(Raised(ValueError, NotConvertibleMsg));
      }
      var file := io.Fopen(CView(converted.value), ReadMode, fopenOk, fd);
      if file == null {
        return Some(Raised(SystemError, OpenFailedMsg));
      }
      fp := file;
      acquired := acquired + {file};
      var p := io.PcapFopenOffline(file, pcapOk, packets);
      if p == null {
        var _ := io.Fclose(file, true);
        fp := null;
        return Some(Raised(SystemError, PcapFailedMsg));
      }
      pcap := p;
      filename := Some(arg);
      err := None;
    }

    /**
     * PcapReader_init as written: when the file holds no readable capture the
     * stream stays open and stored in `fp` while `_pcap` stays NULL.
     */
    method InitAsWritten(arg: PyValue, fopenOk: bool, fd: int, pcapOk: bool, packets: seq<PacketHeader>, io: Env)
      returns (err: Option<PyError>)
      requires Valid() && fp == null
      modifies this, io
      ensures io.faults == old(io.faults)
      ensures err == None <==> ToCString(arg).Ok? && fopenOk && pcapOk
      ensures ToCString(arg).Ok? && fopenOk && !pcapOk ==>
        && err == Some(Raised(SystemError, PcapFailedMsg))
        && fp != null && fresh(fp) && fp.isOpen && fp in acquired && pcap == null
      ensures err == None ==> Valid() && filename == Some(arg)
    {
      if !arg.PyStr? {
        return Some(Raised(ValueError, NotStringMsg));
      }
      var converted := ToCString(arg);
      if converted.Err? {
        return Some(Raised(ValueError, NotConvertibleMsg));
      }
      var file := io.Fopen(CView(converted.value), ReadMode, fopenOk, fd);
      if file == null {
        return Some(Raised(SystemError, OpenFailedMsg));
      }
      fp := file;
      acquired := acquired + {file};
      var p := io.PcapFopenOffline(file, pcapOk, packets);
      if p == null {
        return Some(Raised(SystemError, PcapFailedMsg));
      }
      pcap := p;
      filename := Some(arg);
      err := None;
    }

    /**
     * close(): NULL `fp` means nothing to do; otherwise the context is released,
     * which releases the stream, and both pointers become NULL.
     */
    method Close(io: Env)
      modifies this, io, pcap, if pcap != null then {pcap.file} else {}
      ensures old(fp) == null ==> unchanged(this, io) && (pcap != null ==> unchanged(pcap))
      ensures old(fp) != null ==>
        && fp == null && pcap == null
        && io.faults == old(io.faults) + (if old(pcap) != null && old(pcap.isOpen) && old(pcap.file.isOpen) then 0 else 1)
      ensures filename == old(filename) && acquired == old(acquired)
      ensures old(Valid()) ==> Valid() && fp == null && pcap == null && io.faults == old(io.faults)
      ensures old(Valid()) && old(pcap) != null ==> !old(pcap).isOpen && !old(fp).isOpen
    {
      if fp == null {
        return;
      }
      io.PcapClose(pcap);
      pcap := null;
      fp := null;
    }

    /** fileno(): the descriptor of the held stream, or SystemError once closed. */
    method Fileno() returns (r: Result<int>)
      ensures r.Ok? <==> fp != null
      ensures fp != null ==> r.value == fp.fd
      ensures fp == null ==> r == Err(Raised(SystemError, FilenoClosedMsg))
    {
      if fp == null {
        return Err(Raised(SystemError, FilenoClosedMsg));
      }
      r := Ok(fp.fd);
    }

    /**
     * read(): drains the context and returns how many records it still held;
     * with no context it raises SystemError.
     */
    method Read(io: Env) returns (r: Result<int>)
      requires Valid()
      modifies io, pcap
      ensures Valid() && io.faults == old(io.faults)
      ensures pcap == null ==> r == Err(Raised(SystemError, ReadClosedMsg)) && unchanged(io)
      ensures pcap != null ==> r == Ok(|old(pcap.remaining)|) && pcap.remaining == []
    {
      if pcap == null {
        return Err(Raised(SystemError, ReadClosedMsg));
      }
      var count := 0;
      var next := io.PcapNext(pcap);
      while next.Some?
        invariant pcap.isOpen && io.faults == old(io.faults)
        invariant count + |pcap.remaining| + (if next.Some? then 1 else 0) == |old(pcap.remaining)|
        invariant next.None? ==> pcap.remaining == []
        decreases |pcap.remaining| + (if next.Some? then 1 else 0)
      {
        count := count + 1;
        next := io.PcapNext(pcap);
      }
      r := Ok(count);
    }

    /** The `closed` attribute: whether `fp` is NULL; for a valid object, whether no context is held. */
    function Closed(): (r: bool)
      reads this, fp, pcap, acquired
      ensures Valid() ==> (r <==> pcap == null)
    {
      fp == null
    }

    /** The setters of `closed` and `filename` always raise AttributeError and change nothing. */
    method SetAttribute(attr: Attribute, value: PyValue) returns (err: PyError)
      ensures attr == ClosedAttr ==> err == Raised(AttributeError, "closed attribute is read-only")
      ensures attr == FilenameAttr ==> err == Raised(AttributeError, "filename attribute is read-only")
    {
      match attr
      case ClosedAttr => err := Raised(AttributeError, "closed attribute is read-only");
      case FilenameAttr => err := Raised(AttributeError, "filename attribute is read-only");
    }

    /**
     * tp_dealloc: releases the context, and with it the stream, only when
     * `_pcap` is not NULL, and leaves both pointers NULL. For a valid object every
     * stream it opened is released afterwards.
     */
    method Dealloc(io: Env)
      modifies this, io, pcap, if pcap != null then {pcap.file} else {}
      ensures pcap == null
      ensures old(pcap) == null ==> unchanged(this, io)
      ensures old(pcap) != null ==> fp == null
      ensures old(Valid()) ==> fp == null && io.faults == old(io.faults) && forall f :: f in acquired ==> !f.isOpen
    {
      if pcap != null {
        io.PcapClose(pcap);
        pcap := null;
        fp := null;
      }
    }
  }

  /**
   * A capture of five records: the first read returns 5, a second read 0; after
   * close the reader reads closed and read and fileno raise SystemError.
   */
  method DrainScenario(io: Env) returns (r: PcapReader, first: Result<int>, second: Result<int>, late: Result<int>)
    modifies io
    ensures first == Ok(5) && second == Ok(0)
    ensures r.Closed() && late == Err(Raised(SystemError, ReadClosedMsg))
    ensures io.faults == old(io.faults)
  {
    r := new PcapReader.Alloc();
    var h := PacketHeader(0, 0, 60, 60);
    var err := r.Init(PyStr("test.pcap"), true, 3, true, [h, h, h, h, h], io);
    var fd := r.Fileno();
    assert fd == Ok(3) && !r.Closed();
    first := r.Read(io);
    second := r.Read(io);
    r.Close(io);
    r.Close(io);
    late := r.Read(io);
    fd := r.Fileno();
    assert fd.Err?;
  }

  /**
   * As written, a file that opens but holds no capture stays open after the
   * failed reader is released: dealloc looks only at `_pcap`.
   */
  method NotACaptureAsWritten(io: Env) returns (leaked: CFile)
    modifies io
    ensures leaked.isOpen
  {
    var r := new PcapReader.Alloc();
    var err := r.InitAsWritten(PyStr("notes.txt"), true, 3, false, [], io);
    leaked := r.fp;
    r.Dealloc(io);
  }

  /** Corrected, the same failure leaves no stream open once the reader is released. */
  method NotACaptureCorrected(io: Env) returns (r: PcapReader)
    modifies io
    ensures r.acquired != {} && forall f :: f in r.acquired ==> !f.isOpen
    ensures io.faults == old(io.faults)
  {
    r := new PcapReader.Alloc();
    var err := r.Init(PyStr("notes.txt"), true, 3, false, [], io);
    assert r.acquired != {};
    r.Dealloc(io);
  }
}
