/**
 * The C library and libpcap as the extension uses them. Which way a call goes
 * (fopen succeeds or not, what fclose returns, whether a file holds a readable
 * capture) is chosen by the environment and passed in as a parameter. A call
 * whose argument the library forbids (a NULL pointer, a stream or capture
 * context already released) is undefined behaviour in C; here it is counted in
 * `Env.faults`, so "the handle is never released twice" reads as "faults does
 * not change".
 */
module Native {
  import opened Wrappers

  const EOF: int := -1

  /** Where a stream came from: a path given to fopen, or a descriptor given to fdopen. */
  datatype Origin = Path(path: string) | Descriptor(fd: int)

  /** A stdio stream (FILE *). */
  class CFile {
    const origin: Origin
    const mode: string
    const fd: int
    var isOpen: bool

    constructor (origin: Origin, mode: string, fd: int)
      ensures this.origin == origin && this.mode == mode && this.fd == fd && isOpen
    {
      this.origin, this.mode, this.fd := origin, mode, fd;
      isOpen := true;
    }
  }

  /** The header libpcap fills in for each record (struct pcap_pkthdr). */
  datatype PacketHeader = PacketHeader(seconds: int, fraction: nat, capLen: nat, len: nat)

  /**
   * A capture context opened for offline reading on a stream (pcap_t). It owns the
   * stream: closing the context closes the stream. `remaining` is what pcap_next
   * will still deliver, in file order.
   */
  class Pcap {
    const file: CFile
    var isOpen: bool
    var remaining: seq<PacketHeader>

    constructor (file: CFile, packets: seq<PacketHeader>)
      ensures this.file == file && isOpen && remaining == packets
    {
      this.file := file;
      isOpen, remaining := true, packets;
    }
  }

  class Env {
    /** Number of library calls made with an argument the library forbids. */
    var faults: nat

    constructor ()
      ensures faults == 0
    {
      faults := 0;
    }

    /** fopen: a fresh open stream, or NULL when the environment refuses (`ok` false). */
    method Fopen(path: string, mode: string, ok: bool, fd: int) returns (f: CFile?)
      ensures ok <==> f != null
      ensures f != null ==> fresh(f) && f.isOpen && f.origin == Path(path) && f.mode == mode && f.fd == fd
    {
      if ok { f := new CFile(Path(path), mode, fd); } else { f := null; }
    }

    /** fdopen: a fresh open stream on an existing descriptor, or NULL. */
    method Fdopen(fd: int, mode: string, ok: bool) returns (f: CFile?)
      ensures ok <==> f != null
      ensures f != null ==> fresh(f) && f.isOpen && f.origin == Descriptor(fd) && f.mode == mode && f.fd == fd
    {
      if ok { f := new CFile(Descriptor(fd), mode, fd); } else { f := null; }
    }

    /**
     * fclose: the stream is released whatever the result (section 7.21.5.1 of the
     * C11 standard); `ok` false makes it report EOF, as when the final flush fails.
     * A NULL or already released stream is a fault.
     */
    method Fclose(f: CFile?, ok: bool) returns (rc: int)
      modifies this, f
      ensures f != null ==> !f.isOpen
      ensures f != null && old(f.isOpen) ==> faults == old(faults) && rc == (if ok then 0 else EOF)
      ensures f == null || !old(f.isOpen) ==> faults == old(faults) + 1 && rc == EOF
    {
      if f != null && f.isOpen {
        f.isOpen := false;
        rc := if ok then 0 else EOF;
      } else {
        faults := faults + 1;
        rc := EOF;
      }
    }

    /**
     * fwrite of `size` bytes: only whether the stream may be written is modelled.
     * `size` records the byte count the call site passes; the bytes themselves
     * and the count written are not modelled.
     */
    method Fwrite(f: CFile?, size: nat)
      modifies this
      ensures faults == old(faults) + (if f != null && f.isOpen then 0 else 1)
    {
      if f == null || !f.isOpen {
        faults := faults + 1;
      }
    }

    /**
     * pcap_fopen_offline_with_tstamp_precision: a context reading `packets` from the
     * stream, or NULL when the stream holds no readable capture. On failure the
     * stream stays open and stays the caller's.
     */
    method PcapFopenOffline(f: CFile, ok: bool, packets: seq<PacketHeader>) returns (p: Pcap?)
      modifies this
      ensures ok <==> p != null
      ensures p != null ==> fresh(p) && p.isOpen && p.file == f && p.remaining == packets
      ensures faults == old(faults) + (if f.isOpen then 0 else 1)
    {
      if !f.isOpen {
        faults := faults + 1;
      }
      if ok { p := new Pcap(f, packets); } else { p := null; }
    }

    /** pcap_close: releases the context and the stream it owns. */
    method PcapClose(p: Pcap?)
      modifies this, p, if p != null then {p.file} else {}
      ensures p != null && old(p.isOpen) ==> !p.isOpen && !p.file.isOpen
      ensures faults == old(faults) + (if p != null && old(p.isOpen) && old(p.file.isOpen) then 0 else 1)
    {
      if p == null || !p.isOpen {
        faults := faults + 1;
      } else {
        p.isOpen := false;
        if p.file.isOpen {
          p.file.isOpen := false;
        } else {
          faults := faults + 1;
        }
      }
    }

    /** pcap_next: the next record header in file order, or NULL at the end. */
    method PcapNext(p: Pcap) returns (h: Option<PacketHeader>)
      modifies this, p
      ensures p.isOpen == old(p.isOpen)
      ensures old(p.isOpen) ==> faults == old(faults)
      ensures old(p.isOpen) && old(p.remaining) != [] ==> h == Some(old(p.remaining)[0]) && p.remaining == old(p.remaining)[1..]
      ensures old(p.isOpen) && old(p.remaining) == [] ==> h == None && p.remaining == []
      ensures !old(p.isOpen) ==> h == None && faults == old(faults) + 1 && p.remaining == old(p.remaining)
    {
      if !p.isOpen {
        faults := faults + 1;
        h := None;
      } else if p.remaining == [] {
        h := None;
      } else {
        h := Some(p.remaining[0]);
        p.remaining := p.remaining[1..];
      }
    }
  }
}
