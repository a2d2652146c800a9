/**
 * Device enumeration of source/pypcap.c: libpcap's linked lists of interfaces and
 * addresses, modelled as sequences in list order, become Python dicts and lists.
 * The helpers af_to_string, sockaddr_addr and pcap_flags are not part of this
 * model; they are passed in as total functions (NetHelpers).
 */
module Devices {
  import opened Wrappers
  import opened Python
  import opened Util

  /** A socket address: its family and the raw bytes that follow it. */
  datatype Sockaddr = Sockaddr(family: nat, raw: seq<bv8>)

  /** pcap_addr_t; a None field is a NULL pointer. */
  datatype PcapAddr = PcapAddr(
    addr: Option<Sockaddr>,
    netmask: Option<Sockaddr>,
    broadaddr: Option<Sockaddr>,
    dstaddr: Option<Sockaddr>)

  /** bpf_u_int32. */
  type U32 = x: int | 0 <= x < 0x1_0000_0000

  /** pcap_if_t; `addresses` is its address list in link order. */
  datatype PcapIf = PcapIf(name: string, description: Option<string>, flags: U32, addresses: seq<PcapAddr>)

  /** The flag table of util.h: at most PCAP_FLAG_MAX names are meaningful. */
  const PCAP_FLAG_MAX := 4

  datatype PFlagsRaw = PFlags(size: nat, flags: seq<string>)
  /** struct pflags: `size` of the fixed-size `flags` array are in use. */
  type PFlags = pf: PFlagsRaw | pf.size <= PCAP_FLAG_MAX && |pf.flags| == PCAP_FLAG_MAX
    witness PFlags(0, ["", "", "", ""])

  /** What sockaddr_addr returns (0 on success) and the host buffer it fills. */
  datatype Resolution = Resolution(status: int, host: seq<char>)

  /** The helper functions declared in util.h. */
  datatype NetHelpers = NetHelpers(
    afToString: nat -> string,
    sockaddrAddr: Sockaddr -> Resolution,
    pcapFlags: U32 -> PFlags)

  /**
   * len_addresses: walks the list from its head, one node per step, and returns
   * the number of nodes (0 for an empty list).
   */
  method LenAddresses(addrs: seq<PcapAddr>) returns (count: nat)
    ensures count == |addrs|
  {
    count := 0;
    var a := addrs;
    while a != []
      invariant count + |a| == |addrs|
      decreases |a|
    {
      count := count + 1;
      a := a[1..];
    }
  }

  /**
   * Py_Sockaddr_Addr: the host name as a str when sockaddr_addr succeeds, None
   * otherwise. The str is the host buffer up to its terminating NUL.
   */
  function SockaddrValue(sa: Sockaddr, h: NetHelpers): (v: PyValue)
    ensures v.PyStr? <==> h.sockaddrAddr(sa).status == 0
    ensures v.PyStr? ==> v.s == CView(h.sockaddrAddr(sa).host) && '\0' !in v.s
    ensures !v.PyStr? ==> v == PyNone
  {
    var res := h.sockaddrAddr(sa);
    if res.status == 0 then PyStr(CView(res.host)) else PyNone
  }

  /** Sets `key` to the resolved address when the pointer is non-NULL. */
  function SetResolved(d: Dict, key: string, sa: Option<Sockaddr>, h: NetHelpers): Dict {
    if sa.Some? then d.SetItem(key, SockaddrValue(sa.value, h)) else d
  }

  /**
   * Py_Build_Addr: a dict holding "af" and "addr" exactly when the address is
   * non-NULL, and "netmask", "broadaddr", "dstaddr" exactly when their pointer is
   * non-NULL, each with the resolved address; no other key.
   */
  function BuildAddr(a: PcapAddr, h: NetHelpers): (d: Dict)
    ensures d.entries.Keys <= {"af", "addr", "netmask", "broadaddr", "dstaddr"}
    ensures ("af" in d.entries <==> a.addr.Some?) && ("addr" in d.entries <==> a.addr.Some?)
    ensures "netmask" in d.entries <==> a.netmask.Some?
    ensures "broadaddr" in d.entries <==> a.broadaddr.Some?
    ensures "dstaddr" in d.entries <==> a.dstaddr.Some?
    ensures a.addr.Some? ==>
      d.entries["af"] == PyStr(h.afToString(a.addr.value.family)) && d.entries["addr"] == SockaddrValue(a.addr.value, h)
    ensures a.netmask.Some? ==> d.entries["netmask"] == SockaddrValue(a.netmask.value, h)
    ensures a.broadaddr.Some? ==> d.entries["broadaddr"] == SockaddrValue(a.broadaddr.value, h)
    ensures a.dstaddr.Some? ==> d.entries["dstaddr"] == SockaddrValue(a.dstaddr.value, h)
  {
    var withAf := if a.addr.Some? then EmptyDict.SetItem("af", PyStr(h.afToString(a.addr.value.family))) else EmptyDict;
    var withAddr := SetResolved(withAf, "addr", a.addr, h);
    var withNetmask := SetResolved(withAddr, "netmask", a.netmask, h);
    var withBroadaddr := SetResolved(withNetmask, "broadaddr", a.broadaddr, h);
    SetResolved(withBroadaddr, "dstaddr", a.dstaddr, h)
  }

  /**
   * The "i" conversion of the unsigned flags word: the C int with the same 32
   * bits, in two's complement.
   */
  function AsCInt(flags: U32): (r: int)
    ensures -0x8000_0000 <= r < 0x8000_0000
    ensures r % 0x1_0000_0000 == flags
  {
    if flags < 0x8000_0000 then flags else flags - 0x1_0000_0000
  }

  /** The "s" conversion of a possibly NULL C string. */
  function StrOrNone(s: Option<string>): (v: PyValue)
    ensures s.None? <==> v == PyNone
    ensures s.Some? ==> v == PyStr(s.value)
  {
    if s.Some? then PyStr(s.value) else PyNone
  }

  /** The "addresses" list: one record per address, in list order. */
  function AddressList(addrs: seq<PcapAddr>, h: NetHelpers): (items: seq<PyValue>)
    ensures |items| == |addrs|
    ensures forall j :: 0 <= j < |addrs| ==> items[j] == PyDict(BuildAddr(addrs[j], h))
  {
    if addrs == [] then [] else [PyDict(BuildAddr(addrs[0], h))] + AddressList(addrs[1..], h)
  }

  /** The "flags" list: the first `size` names of the flag table. */
  function FlagNames(pf: PFlags): (items: seq<PyValue>)
    ensures |items| == pf.size <= PCAP_FLAG_MAX
  {
    seq(pf.size, i requires 0 <= i < pf.size => PyStr(pf.flags[i]))
  }

  /** The keys of an interface record, in insertion order. */
  const InterfaceKeys: seq<string> := ["name", "description", "flags_int", "addresses", "flags"]

  /** The record Py_Build_Interface returns for one interface. */
  function InterfaceRecord(iface: PcapIf, h: NetHelpers): Dict {
    EmptyDict
      .SetItem("name", PyStr(iface.name))
      .SetItem("description", StrOrNone(iface.description))
      .SetItem("flags_int", PyInt(AsCInt(iface.flags)))
      .SetItem("addresses", PyList(AddressList(iface.addresses, h)))
      .SetItem("flags", PyList(FlagNames(h.pcapFlags(iface.flags))))
  }

  /**
   * An interface record has the keys name, description, flags_int, addresses and
   * flags, in that order: the name, the description or None, the flags word as a
   * C int, one address record per address, and at most PCAP_FLAG_MAX flag names.
   */
  lemma InterfaceRecordShape(iface: PcapIf, h: NetHelpers)
    ensures InterfaceRecord(iface, h).Valid()
    ensures InterfaceRecord(iface, h).order == InterfaceKeys
    ensures InterfaceRecord(iface, h).entries == map[
      "name" := PyStr(iface.name),
      "description" := StrOrNone(iface.description),
      "flags_int" := PyInt(AsCInt(iface.flags)),
      "addresses" := PyList(AddressList(iface.addresses, h)),
      "flags" := PyList(FlagNames(h.pcapFlags(iface.flags)))]
    ensures |InterfaceRecord(iface, h).entries["addresses"].items| == |iface.addresses|
    ensures |InterfaceRecord(iface, h).entries["flags"].items| <= PCAP_FLAG_MAX
  {
    RecordStores(PyStr(iface.name), StrOrNone(iface.description), PyInt(AsCInt(iface.flags)),
      PyList(AddressList(iface.addresses, h)), PyList(FlagNames(h.pcapFlags(iface.flags))));
  }

  /** Storing the five record keys in turn into a new dict. */
  lemma RecordStores(name: PyValue, description: PyValue, flagsInt: PyValue, addresses: PyValue, flags: PyValue)
    ensures
      var d := EmptyDict.SetItem("name", name).SetItem("description", description).SetItem("flags_int", flagsInt)
        .SetItem("addresses", addresses).SetItem("flags", flags);
      && d.Valid()
      && d.order == InterfaceKeys
      && d.entries == map["name" := name, "description" := description, "flags_int" := flagsInt,
                          "addresses" := addresses, "flags" := flags]
  {
    var d3 := EmptyDict.SetItem("name", name).SetItem("description", description).SetItem("flags_int", flagsInt);
    assert d3 == Dict(["name", "description", "flags_int"],
      map["name" := name, "description" := description, "flags_int" := flagsInt]);
    var d4 := d3.SetItem("addresses", addresses);
    assert "addresses" !in d3.entries;
    var d5 := d4.SetItem("flags", flags);
    assert "flags" !in d4.entries;
    assert d5.order == InterfaceKeys;
    assert d5.entries == map["name" := name, "description" := description, "flags_int" := flagsInt,
                             "addresses" := addresses, "flags" := flags];
  }

  /**
   * Py_Build_Interface: builds the scalar entries, fills the address list slot by
   * slot while walking the address list, then fills the flag list from the flag
   * table.
   */
  method BuildInterface(iface: PcapIf, h: NetHelpers) returns (d: Dict)
    ensures d == InterfaceRecord(iface, h)
  {
    d := EmptyDict
      .SetItem("name", PyStr(iface.name))
      .SetItem("description", StrOrNone(iface.description))
      .SetItem("flags_int", PyInt(AsCInt(iface.flags)));

    var lenAddrs := LenAddresses(iface.addresses);
    var addrList := new PyValue[lenAddrs](_ => PyNone);
    var addr := iface.addresses;
    for i := 0 to lenAddrs
      invariant addr == iface.addresses[i..]
      invariant forall j :: 0 <= j < i ==> addrList[j] == PyDict(BuildAddr(iface.addresses[j], h))
    {
      addrList[i] := PyDict(BuildAddr(addr[0], h));
      addr := addr[1..];
    }
    assert addrList[..] == AddressList(iface.addresses, h);
    d := d.SetItem("addresses", PyList(addrList[..]));

    var pf := h.pcapFlags(iface.flags);
    var flagList := new PyValue[pf.size](_ => PyNone);
    for i := 0 to pf.size
      invariant forall j :: 0 <= j < i ==> flagList[j] == PyStr(pf.flags[j])
    {
      flagList[i] := PyStr(pf.flags[i]);
    }
    assert flagList[..] == FlagNames(pf);
    d := d.SetItem("flags", PyList(flagList[..]));
  }

  /** The keys of a sequence of stores, in order. */
  function KeysOf(stores: seq<(string, PyValue)>): (keys: seq<string>)
  {
    seq(|stores|, i requires 0 <= i < |stores| => stores[i].0)
  }

  /** A new dict after d[k] = v for each (k, v) of `stores`, in turn. */
  function Fill(stores: seq<(string, PyValue)>): (d: Dict)
    ensures d.Valid()
    ensures forall k :: k in d.entries <==> k in KeysOf(stores)
  {
    if stores == [] then EmptyDict
    else
      var prefix := stores[..|stores| - 1];
      var last := stores[|stores| - 1];
      SetItemKeepsValid(Fill(prefix), last.0, last.1);
      assert KeysOf(stores) == KeysOf(prefix) + [last.0];
      Fill(prefix).SetItem(last.0, last.1)
  }

  /** The value stored under a key is the one of its last store. */
  lemma {:induction false} FillLastStoreWins(stores: seq<(string, PyValue)>, i: nat)
    requires i < |stores|
    requires forall j :: i < j < |stores| ==> stores[j].0 != stores[i].0
    ensures stores[i].0 in Fill(stores).entries
    ensures Fill(stores).entries[stores[i].0] == stores[i].1
  {
    var prefix := stores[..|stores| - 1];
    SetItemKeepsValid(Fill(prefix), stores[|stores| - 1].0, stores[|stores| - 1].1);
    if i < |stores| - 1 {
      FillLastStoreWins(prefix, i);
    }
  }

  /** With distinct keys, the dict's order is the order of the stores. */
  lemma {:induction false} FillDistinctInOrder(stores: seq<(string, PyValue)>)
    requires forall i, j :: 0 <= i < j < |stores| ==> stores[i].0 != stores[j].0
    ensures Fill(stores).order == KeysOf(stores)
  {
    if stores != [] {
      var prefix := stores[..|stores| - 1];
      var last := stores[|stores| - 1];
      FillDistinctInOrder(prefix);
      SetItemKeepsValid(Fill(prefix), last.0, last.1);
      assert last.0 !in KeysOf(prefix);
      assert KeysOf(stores) == KeysOf(prefix) + [last.0];
    }
  }

  /** Every value in the dict is the value of some store under that key. */
  lemma {:induction false} FillValuesStored(stores: seq<(string, PyValue)>, k: string)
    requires k in Fill(stores).entries
    ensures exists i :: 0 <= i < |stores| && stores[i].0 == k && Fill(stores).entries[k] == stores[i].1
  {
    var prefix := stores[..|stores| - 1];
    var last := stores[|stores| - 1];
    SetItemKeepsValid(Fill(prefix), last.0, last.1);
    if k != last.0 {
      FillValuesStored(prefix, k);
      var i :| 0 <= i < |prefix| && prefix[i].0 == k && Fill(prefix).entries[k] == prefix[i].1;
      assert stores[i] == prefix[i];
    }
  }

  /** The stores find_all_devs makes: each interface's record under its name. */
  function Stores(ifaces: seq<PcapIf>, h: NetHelpers): (stores: seq<(string, PyValue)>)
  {
    seq(|ifaces|, i requires 0 <= i < |ifaces| => (ifaces[i].name, PyDict(InterfaceRecord(ifaces[i], h))))
  }

  /** The names of the interfaces, in enumeration order. */
  function Names(ifaces: seq<PcapIf>): (names: seq<string>)
  {
    seq(|ifaces|, i requires 0 <= i < |ifaces| => ifaces[i].name)
  }

  /** The dict find_all_devs returns. */
  function Directory(ifaces: seq<PcapIf>, h: NetHelpers): Dict {
    Fill(Stores(ifaces, h))
  }

  /**
   * find_all_devs: a -1 from the enumeration raises SystemError with the error
   * buffer's message; otherwise the interfaces are stored one by one, in list
   * order, into a new dict.
   */
  method FindAllDevs(res: int, errbuf: seq<char>, ifaces: seq<PcapIf>, h: NetHelpers) returns (r: Result<Dict>)
    ensures res == -1 ==> r == Err(Raised(SystemError, CView(errbuf)))
    ensures res != -1 ==> r == Ok(Directory(ifaces, h))
  {
    if res == -1 {
      return Err(Raised(SystemError, CView(errbuf)));
    }
    var d := EmptyDict;
    for i := 0 to |ifaces|
      invariant d == Fill(Stores(ifaces[..i], h))
    {
      var idict := BuildInterface(ifaces[i], h);
      assert Stores(ifaces[..i + 1], h)[..i] == Stores(ifaces[..i], h);
      d := d.SetItem(ifaces[i].name, PyDict(idict));
    }
    assert ifaces[..|ifaces|] == ifaces;
    r := Ok(d);
  }

  /**
   * The directory is a well-formed dict keyed by exactly the enumerated names;
   * an empty enumeration gives an empty dict.
   */
  lemma DirectoryKeys(ifaces: seq<PcapIf>, h: NetHelpers)
    ensures Directory(ifaces, h).Valid()
    ensures forall k :: k in Directory(ifaces, h).entries <==> k in Names(ifaces)
    ensures ifaces == [] ==> Directory(ifaces, h) == EmptyDict
  {
    assert KeysOf(Stores(ifaces, h)) == Names(ifaces);
  }

  /**
   * A name's entry is the record of the last interface enumerated under that
   * name: a later duplicate overwrites an earlier one.
   */
  lemma LastWriteWins(ifaces: seq<PcapIf>, i: nat, h: NetHelpers)
    requires i < |ifaces|
    requires forall j :: i < j < |ifaces| ==> ifaces[j].name != ifaces[i].name
    ensures ifaces[i].name in Directory(ifaces, h).entries
    ensures Directory(ifaces, h).entries[ifaces[i].name] == PyDict(InterfaceRecord(ifaces[i], h))
  {
    FillLastStoreWins(Stores(ifaces, h), i);
  }

  /** With distinct names, the keys are the names in enumeration order. */
  lemma DistinctNamesInOrder(ifaces: seq<PcapIf>, h: NetHelpers)
    requires forall i, j :: 0 <= i < j < |ifaces| ==> ifaces[i].name != ifaces[j].name
    ensures Directory(ifaces, h).order == Names(ifaces)
  {
    FillDistinctInOrder(Stores(ifaces, h));
    assert KeysOf(Stores(ifaces, h)) == Names(ifaces);
  }

  /** Every entry of the directory is the record of an interface enumerated under its key. */
  lemma EntryOrigin(ifaces: seq<PcapIf>, h: NetHelpers, k: string) returns (i: nat)
    requires k in Directory(ifaces, h).entries
    ensures i < |ifaces| && ifaces[i].name == k
    ensures Directory(ifaces, h).entries[k] == PyDict(InterfaceRecord(ifaces[i], h))
  {
    var stores := Stores(ifaces, h);
    FillValuesStored(stores, k);
    i :| 0 <= i < |stores| && stores[i].0 == k && Fill(stores).entries[k] == stores[i].1;
  }

  /**
   * Every entry of the directory is an interface record with the five keys, whose
   * "name" is the key it is stored under.
   */
  lemma EntriesAreRecords(ifaces: seq<PcapIf>, h: NetHelpers, k: string)
    requires k in Directory(ifaces, h).entries
    ensures
      var v := Directory(ifaces, h).entries[k];
      && v.PyDict?
      && v.dict.Valid()
      && v.dict.order == InterfaceKeys
      && v.dict.entries.Keys == {"name", "description", "flags_int", "addresses", "flags"}
      && v.dict.entries["name"] == PyStr(k)
  {
    var i := EntryOrigin(ifaces, h, k);
    InterfaceRecordShape(ifaces[i], h);
  }
}
