/**
 * The PcapCapture of source/capture.h: a live-capture configuration whose
 * initialisation converts and validates its arguments, applies the defaults and
 * fixes the snap length. Each field is assigned as soon as its check passes, so
 * a later failing check leaves the earlier fields updated.
 */
module Capture {
  import opened Wrappers
  import opened Python
  import opened Util

  /** A C `int`, the type of the numeric arguments after parsing. */
  type CInt = x: int | -0x8000_0000 <= x < 0x8000_0000

  /** The fixed snap length (MAX_PACKET_SIZE). */
  const MaxPacketSize: CInt := 65535
  const DefaultPromiscuous: CInt := 0
  const DefaultTimeoutMs: CInt := 1000

  const InterfaceNameMsg := "Could not convert interface name to a c string"
  const OutputFilenameMsg := "Could not convert output filename to a c string"
  const MaxPacketsMsg := "max_packets must be > 0"
  const TimeoutMsg := "timeout_ms must be > 0"

  /** The arguments after parsing: two objects, one int, and two optional ints. */
  datatype CaptureArgs = CaptureArgs(
    interfaceName: PyValue,
    outputFilename: PyValue,
    maxPackets: CInt,
    promiscuous: Option<CInt>,
    timeoutMs: Option<CInt>)

  function Promiscuous(a: CaptureArgs): CInt {
    match a.promiscuous
    case Some(p) => p
    case None => DefaultPromiscuous
  }

  function TimeoutMs(a: CaptureArgs): CInt {
    match a.timeoutMs
    case Some(t) => t
    case None => DefaultTimeoutMs
  }

  /** All four checks of init pass. */
  predicate Acceptable(a: CaptureArgs) {
    && ToCString(a.interfaceName).Ok?
    && ToCString(a.outputFilename).Ok?
    && a.maxPackets > 0
    && TimeoutMs(a) > 0
  }

  /**
   * How many of init's checks pass before the first failing one, in the order
   * the source runs them: interface name, output filename, max_packets,
   * timeout_ms.
   */
  function ChecksPassed(a: CaptureArgs): (n: nat)
    ensures n <= 4 && (n == 4 <==> Acceptable(a))
    ensures n >= 1 <==> ToCString(a.interfaceName).Ok?
    ensures n >= 2 ==> ToCString(a.outputFilename).Ok?
    ensures n >= 3 ==> a.maxPackets > 0
  {
    if ToCString(a.interfaceName).Err? then 0
    else if ToCString(a.outputFilename).Err? then 1
    else if a.maxPackets <= 0 then 2
    else if TimeoutMs(a) <= 0 then 3
    else 4
  }

  /**
   * The exception init raises: none exactly when every check passes, otherwise a
   * ValueError naming the first check that fails. In particular an invalid
   * max_packets is reported whatever timeout_ms is.
   */
  function InitError(a: CaptureArgs): (r: Option<PyError>)
    ensures r == None <==> Acceptable(a)
    ensures r != None ==> r.value.Raised? && r.value.kind == ValueError
    ensures ToCString(a.interfaceName).Err? ==> r == Some(Raised(ValueError, InterfaceNameMsg))
    ensures ToCString(a.interfaceName).Ok? && ToCString(a.outputFilename).Err? ==> r == Some(Raised(ValueError, OutputFilenameMsg))
    ensures ToCString(a.interfaceName).Ok? && ToCString(a.outputFilename).Ok? && a.maxPackets <= 0 ==>
      r == Some(Raised(ValueError, MaxPacketsMsg))
    ensures ToCString(a.interfaceName).Ok? && ToCString(a.outputFilename).Ok? && a.maxPackets > 0 && TimeoutMs(a) <= 0 ==>
      r == Some(Raised(ValueError, TimeoutMsg))
  {
    match ChecksPassed(a)
    case 0 => Some(Raised(ValueError, InterfaceNameMsg))
    case 1 => Some(Raised(ValueError, OutputFilenameMsg))
    case 2 => Some(Raised(ValueError, MaxPacketsMsg))
    case 3 => Some(Raised(ValueError, TimeoutMsg))
    case _ => None
  }

  /** The read-only attributes. */
  datatype Attribute = InterfaceNameAttr | OutputFilenameAttr | MaxPacketsAttr | PromiscAttr | TimeoutMsAttr | PacketLengthAttr

  /** The message of each attribute's setter; the packet_length setter calls itself packet_len. */
  function ReadOnlyMsg(attr: Attribute): string {
    match attr
    case InterfaceNameAttr => "interface_name attribute is read-only"
    case OutputFilenameAttr => "output_filename attribute is read-only"
    case MaxPacketsAttr => "max_packets attribute is read-only"
    case PromiscAttr => "promisc attribute is read-only"
    case TimeoutMsAttr => "timeout_ms attribute is read-only"
    case PacketLengthAttr => "packet_len attribute is read-only"
  }

  class PcapCapture {
    // the C-level fields
    var cInterfaceName: Option<string>   // _interface_name
    var cPacketLen: int                  // _packet_len
    var cPromisc: int                    // _promisc
    var cTimeoutMs: int                  // _timeout_ms
    var cOutputFilename: Option<string>  // _output_filename
    var cMaxPackets: int                 // _max_packets
    // the Python attributes; None is a NULL pointer
    var interfaceName: Option<PyValue>
    var packetLen: Option<PyValue>
    var promisc: Option<PyValue>
    var timeoutMs: Option<PyValue>
    var outputFilename: Option<PyValue>
    var maxPackets: Option<PyValue>

    /** tp_new: tp_alloc zero-fills every field. */
    constructor Alloc()
      ensures cInterfaceName == None && cOutputFilename == None
      ensures cPacketLen == 0 && cPromisc == 0 && cTimeoutMs == 0 && cMaxPackets == 0
      ensures interfaceName == None && packetLen == None && promisc == None
      ensures timeoutMs == None && outputFilename == None && maxPackets == None
    {
      cInterfaceName, cOutputFilename := None, None;
      cPacketLen, cPromisc, cTimeoutMs, cMaxPackets := 0, 0, 0, 0;
      interfaceName, packetLen, promisc := None, None, None;
      timeoutMs, outputFilename, maxPackets := None, None, None;
    }

    /**
     * PcapCapture_init: raises InitError(a). The fields of every check that
     * passed are assigned, in order, and stay assigned when a later check fails;
     * the fields of the checks not reached keep their values. A successful init
     * stores the arguments, the defaults for the omitted ones, and the fixed snap
     * length.
     */
    method Init(a: CaptureArgs) returns (err: Option<PyError>)
      modifies this
      ensures err == InitError(a)
      ensures ChecksPassed(a) >= 1 ==>
        cInterfaceName == Some(ToCString(a.interfaceName).value) && interfaceName == Some(a.interfaceName)
      ensures ChecksPassed(a) < 1 ==> cInterfaceName == old(cInterfaceName) && interfaceName == old(interfaceName)
      ensures ChecksPassed(a) >= 2 ==>
        cOutputFilename == Some(ToCString(a.outputFilename).value) && outputFilename == Some(a.outputFilename)
      ensures ChecksPassed(a) < 2 ==> cOutputFilename == old(cOutputFilename) && outputFilename == old(outputFilename)
      ensures ChecksPassed(a) >= 3 ==>
        && cMaxPackets == a.maxPackets && maxPackets == Some(PyInt(a.maxPackets))
        && cPromisc == Promiscuous(a) && promisc == Some(PyBool(Promiscuous(a) != 0))
      ensures ChecksPassed(a) < 3 ==>
        cMaxPackets == old(cMaxPackets) && maxPackets == old(maxPackets) && cPromisc == old(cPromisc) && promisc == old(promisc)
      ensures ChecksPassed(a) == 4 ==>
        && cTimeoutMs == TimeoutMs(a) && timeoutMs == Some(PyInt(TimeoutMs(a)))
        && cPacketLen == MaxPacketSize && packetLen == Some(PyInt(MaxPacketSize))
      ensures ChecksPassed(a) < 4 ==>
        cTimeoutMs == old(cTimeoutMs) && timeoutMs == old(timeoutMs) && cPacketLen == old(cPacketLen) && packetLen == old(packetLen)
    {
      var iface := ToCString(a.interfaceName);
      if iface.Err? {
        return Some(Raised(ValueError, InterfaceNameMsg));
      }
      cInterfaceName := Some(iface.value);
      interfaceName := Some(a.interfaceName);

      var output := ToCString(a.outputFilename);
      if output.Err? {
        return Some(Raised(ValueError, OutputFilenameMsg));
      }
      cOutputFilename := Some(output.value);
      outputFilename := Some(a.outputFilename);

      if a.maxPackets <= 0 {
        return Some(Raised(ValueError, MaxPacketsMsg));
      }
      cMaxPackets := a.maxPackets;
      maxPackets := Some(PyInt(a.maxPackets));

      var promiscuous := Promiscuous(a);
      cPromisc := promiscuous;
      promisc := Some(PyBool(promiscuous != 0));

      var timeout := TimeoutMs(a);
      if timeout <= 0 {
        return Some(Raised(ValueError, TimeoutMsg));
      }
      cTimeoutMs := timeout;
      timeoutMs := Some(PyInt(timeout));

      cPacketLen := MaxPacketSize;
      packetLen := Some(PyInt(MaxPacketSize));
      err := None;
    }

    /** Every attribute setter raises AttributeError and changes nothing. */
    method SetAttribute(attr: Attribute, value: PyValue) returns (err: PyError)
      ensures err.Raised? && err.kind == AttributeError
      ensures err.msg == ReadOnlyMsg(attr)
    {
      err := Raised(AttributeError, ReadOnlyMsg(attr));
    }
  }

  /**
   * The capture test: interface "lo", output "foo.pcap", 10000 packets, the
   * other arguments omitted.
   */
  method CreateScenario() returns (c: PcapCapture)
    ensures c.interfaceName == Some(PyStr("lo")) && c.outputFilename == Some(PyStr("foo.pcap"))
    ensures c.maxPackets == Some(PyInt(10000)) && c.promisc == Some(PyBool(false))
    ensures c.timeoutMs == Some(PyInt(1000)) && c.packetLen == Some(PyInt(65535))
  {
    c := new PcapCapture.Alloc();
    var err := c.Init(CaptureArgs(PyStr("lo"), PyStr("foo.pcap"), 10000, None, None));
  }

  /**
   * A zero max_packets with a valid interface: init raises the max_packets error
   * and the interface name and output filename stay assigned.
   */
  method PartialInitScenario() returns (c: PcapCapture, err: Option<PyError>)
    ensures err == Some(Raised(ValueError, MaxPacketsMsg))
    ensures c.interfaceName == Some(PyStr("eth0")) && c.outputFilename == Some(PyStr("out.pcap"))
    ensures c.maxPackets == None && c.packetLen == None
  {
    c := new PcapCapture.Alloc();
    err := c.Init(CaptureArgs(PyStr("eth0"), PyStr("out.pcap"), 0, None, Some(-5)));
  }
}
