/** Storing a vendor data call record in the call info of a response. */
module DataCall {
  import opened Basics
  import opened Decimal
  import opened Addresses

  // The address fields of the packed call info follow each other, so that the element behind
  // the last of the four packet data addresses is the gateway.
  const GTWY: nat := 4
  const DNSP: nat := 5
  const DNSS: nat := 6
  const PCSCF: nat := 7
  const FIELDS: nat := 8
  const LOOKAHEAD: nat := URIL_DATA_MAX_ADDR_COUNT + 1
  const URIL_DATA_MAX_DEVICE_NAME_LEN: nat := 13

  datatype PdpType = PdpNone | Ip | Ipv6 | Ipv4v6 | Ppp

  datatype RilDataCall = RilDataCall(
    status: int, suggestedRetryTime: int, cid: int, active: int, pdpType: Option<string>, ifname: Option<string>,
    addresses: Option<string>, gateways: Option<string>, dnses: Option<string>, pcscf: Option<string>,
    mtu: int)

  /** A converted record. addrs are all the address fields, of which the first pdpAddrsLen count. */
  datatype CallInfo = CallInfo(
    failureCause: int, suggestedRetryTime: nat, cid: nat, phyLinkState: nat, pdpType: PdpType, interfaceName: string,
    pdpAddrsLen: nat, addrs: seq<DataAddr>, mtu: nat)

  /** What one call of the parser leaves in its destination; None stands for a failed assertion. */
  function Stored(before: DataAddr, s: Option<string>, parse: string -> Parsed): Option<DataAddr> {
    match s
    case None => Some(ZERO_ADDR)
    case Some(t) =>
      match parse(t)
      case NoAddress => Some(before)
      case TooLong => None
      case Address(a, _) => Some(a)
  }

  function PutStored(mem: seq<DataAddr>, at: nat, s: Option<string>, parse: string -> Parsed): Option<seq<DataAddr>>
    requires at < |mem|
  {
    match Stored(mem[at], s, parse)
    case None => None
    case Some(a) => Some(mem[at := a])
  }

  /** The parse of a call's address list, one element beyond what fits. */
  function PdpList(call: RilDataCall, parse: string -> Parsed): ParsedList {
    if call.addresses.None? then ParsedList([], false) else ParseUpTo(call.addresses.value, LOOKAHEAD, parse)
  }

  datatype Stores = Stores(mem: seq<DataAddr>, len: nat, tooLong: bool)

  /** The loop over the call's addresses from element len on. It writes one element more than it counts. */
  function StoreFrom(mem: seq<DataAddr>, len: nat, s: string, parse: string -> Parsed): Stores
    requires |mem| == FIELDS && len <= URIL_DATA_MAX_ADDR_COUNT
    decreases URIL_DATA_MAX_ADDR_COUNT - len
  {
    match parse(s)
    case NoAddress => Stores(mem, len, false)
    case TooLong => Stores(mem, len, true)
    case Address(a, rest) =>
      if len < URIL_DATA_MAX_ADDR_COUNT then StoreFrom(mem[len := a], len + 1, rest, parse)
      else Stores(mem[len := a], len, false)
  }

  lemma Splice(mem: seq<DataAddr>, len: nat, a: DataAddr, list: seq<DataAddr>)
    requires len + 1 + |list| <= |mem|
    ensures var next := mem[len := a];
            next[..len + 1] + list + next[len + 1 + |list|..] == mem[..len] + ([a] + list) + mem[len + 1 + |list|..]
  {}

  lemma {:induction false} StoresTheList(mem: seq<DataAddr>, len: nat, s: string, parse: string -> Parsed)
    requires |mem| == FIELDS && len <= URIL_DATA_MAX_ADDR_COUNT
    ensures var list := ParseUpTo(s, LOOKAHEAD - len, parse);
            var end := len + |list.addrs|;
            var r := StoreFrom(mem, len, s, parse);
            && r.tooLong == list.tooLong
            && (!r.tooLong ==> r.len == Min(end, URIL_DATA_MAX_ADDR_COUNT)
                               && r.mem == mem[..len] + list.addrs + mem[end..])
    decreases URIL_DATA_MAX_ADDR_COUNT - len
  {
    match parse(s) {
      case Address(a, rest) =>
        var more := ParseUpTo(rest, LOOKAHEAD - len - 1, parse).addrs;
        Splice(mem, len, a, more);
        if len < URIL_DATA_MAX_ADDR_COUNT {
          StoresTheList(mem[len := a], len + 1, rest, parse);
        } else {
          assert mem[len := a] == mem[len := a][..len + 1] + [] + mem[len := a][len + 1..];
        }
      case _ =>
        assert mem == mem[..len] + [] + mem[len..];
    }
  }

  function DnssText(call: RilDataCall, parse: string -> Parsed): Option<string> {
    if call.dnses.Some? && parse(call.dnses.value).Address? then Some(parse(call.dnses.value).rest) else None
  }

  /** Gateway, name servers and P-CSCF, after the list has been stored. */
  function OthersAfter(mem: seq<DataAddr>, call: RilDataCall, parse: string -> Parsed): (r: Option<seq<DataAddr>>)
    requires |mem| == FIELDS
    ensures r.Some? ==> |r.value| == FIELDS
  {
    var mem2 := PutStored(mem, GTWY, call.gateways, parse);
    if mem2.None? then None
    else
      var mem3 := PutStored(mem2.value, DNSP, call.dnses, parse);
      if mem3.None? then None
      else
        var second := DnssText(call, parse);
        var mem4 := if second.Some? then PutStored(mem3.value, DNSS, second, parse) else mem3;
        if mem4.None? then None else PutStored(mem4.value, PCSCF, call.pcscf, parse)
  }

  /** The address fields after the conversion of a call. */
  function AddrsAfter(mem: seq<DataAddr>, call: RilDataCall, parse: string -> Parsed): (r: Option<seq<DataAddr>>)
    requires |mem| == FIELDS
    ensures r.Some? ==> |r.value| == FIELDS
  {
    var list := PdpList(call, parse);
    if list.tooLong then None else OthersAfter(list.addrs + mem[|list.addrs|..], call, parse)
  }

  /** The conversion of a record into zeroed memory; cause is the table of failure causes, None a failed assertion. */
  function InfoOf(call: RilDataCall, cause: int -> int, parse: string -> Parsed): Option<CallInfo> {
    var mem := AddrsAfter(ZeroAddrs(), call, parse);
    if call.active !in {0, 1, 2} || mem.None? then None
    else
      Some(CallInfo(cause(call.status), ToUint16(call.suggestedRetryTime), ToUint8(call.cid), call.active,
                    PdpTypeOf(call.pdpType), NameOf(call.ifname),
                    Min(|PdpList(call, parse).addrs|, URIL_DATA_MAX_ADDR_COUNT), mem.value, ToUint16(call.mtu)))
  }

  function ZeroAddrs(): seq<DataAddr> {
    seq(FIELDS, _ => ZERO_ADDR)
  }

  ghost predicate NeverEmpty(parse: string -> Parsed) {
    forall s: string :: parse(s).Address? ==> parse(s).a.addr != ""
  }

  lemma {:induction false} ListedAddrsAreNotEmpty(s: string, limit: nat, parse: string -> Parsed, i: nat)
    requires NeverEmpty(parse) && i < |ParseUpTo(s, limit, parse).addrs|
    ensures ParseUpTo(s, limit, parse).addrs[i].addr != ""
    decreases limit
  {
    if i > 0 {
      ListedAddrsAreNotEmpty(parse(s).rest, limit - 1, parse, i - 1);
    }
  }

  /** A fifth address is kept as the gateway exactly when the call's gateway text is given but holds no address. */
  lemma GatewayIsStored(call: RilDataCall, parse: string -> Parsed)
    requires NeverEmpty(parse) && AddrsAfter(ZeroAddrs(), call, parse).Some?
    ensures var spilled := |PdpList(call, parse).addrs| > URIL_DATA_MAX_ADDR_COUNT
                           && call.gateways.Some? && parse(call.gateways.value).NoAddress?;
            var stored := AddrsAfter(ZeroAddrs(), call, parse).value[GTWY];
            && (Some(stored) == Stored(ZERO_ADDR, call.gateways, parse) <==> !spilled)
            && (spilled ==> stored == PdpList(call, parse).addrs[URIL_DATA_MAX_ADDR_COUNT])
  {
    if |PdpList(call, parse).addrs| > URIL_DATA_MAX_ADDR_COUNT {
      ListedAddrsAreNotEmpty(call.addresses.value, LOOKAHEAD, parse, URIL_DATA_MAX_ADDR_COUNT);
    }
  }

  /** No address: nothing but spaces, or a slash behind them. */
  predicate HoldsNoAddress(s: string) {
    var behind := Span(s, IsBlank).1;
    behind == "" || behind[0] == '/'
  }

  lemma NoAddressIff(s: string, ulongMax: nat)
    ensures ParseAddr(s, ulongMax).NoAddress? <==> HoldsNoAddress(s)
  {
    SpanSplits(s, IsBlank);
  }

  /** The same of the real parser, by the text of the gateway field. */
  lemma GatewayTextDecides(call: RilDataCall, ulongMax: nat)
    requires AddrsAfter(ZeroAddrs(), call, Parser(ulongMax)).Some?
    ensures var spilled := |PdpList(call, Parser(ulongMax)).addrs| > URIL_DATA_MAX_ADDR_COUNT
                           && call.gateways.Some? && HoldsNoAddress(call.gateways.value);
            var stored := AddrsAfter(ZeroAddrs(), call, Parser(ulongMax)).value[GTWY];
            && (Some(stored) == Stored(ZERO_ADDR, call.gateways, Parser(ulongMax)) <==> !spilled)
            && (spilled ==> stored == PdpList(call, Parser(ulongMax)).addrs[URIL_DATA_MAX_ADDR_COUNT])
  {
    ParserIsNeverEmpty(ulongMax);
    GatewayIsStored(call, Parser(ulongMax));
    if call.gateways.Some? {
      NoAddressIff(call.gateways.value, ulongMax);
    }
  }

  /** The packet data addresses are the first four of the list, whatever follows them. */
  lemma PdpAddrsAreStored(call: RilDataCall, parse: string -> Parsed, i: nat)
    requires AddrsAfter(ZeroAddrs(), call, parse).Some?
    requires i < Min(|PdpList(call, parse).addrs|, URIL_DATA_MAX_ADDR_COUNT)
    ensures AddrsAfter(ZeroAddrs(), call, parse).value[i] == PdpList(call, parse).addrs[i]
  {
    var list := PdpList(call, parse).addrs;
    assert (list + ZeroAddrs()[|list|..])[i] == list[i];
  }

  lemma ParserIsNeverEmpty(ulongMax: nat)
    ensures NeverEmpty(Parser(ulongMax)) && IsParser(Parser(ulongMax), ulongMax)
  {}

  /** A printed list of any length: its first four entries are stored, with their prefixes. */
  lemma PrintedListIsStored(es: seq<Entry>, call: RilDataCall, ulongMax: nat)
    requires (forall i :: 0 <= i < |es| ==> Printable(es[i])) && IsUlongMax(ulongMax)
    requires call.addresses == Some(PrintList(es))
    requires AddrsAfter(ZeroAddrs(), call, Parser(ulongMax)).Some?
    ensures var mem := AddrsAfter(ZeroAddrs(), call, Parser(ulongMax)).value;
            && Min(|PdpList(call, Parser(ulongMax)).addrs|, URIL_DATA_MAX_ADDR_COUNT)
               == Min(|es|, URIL_DATA_MAX_ADDR_COUNT)
            && forall i :: 0 <= i < Min(|es|, URIL_DATA_MAX_ADDR_COUNT) ==> mem[i] == Meaning(es[i])
  {
    var parse := Parser(ulongMax);
    ParsesPrintedList(es, LOOKAHEAD, ulongMax);
    forall i: nat | i < Min(|es|, URIL_DATA_MAX_ADDR_COUNT)
      ensures AddrsAfter(ZeroAddrs(), call, parse).value[i] == Meaning(es[i])
    {
      PdpAddrsAreStored(call, parse, i);
    }
  }

  class DataCallInfo {
    var failureCause: int
    var suggestedRetryTime: nat
    var cid: nat
    var phyLinkState: nat
    var pdpType: PdpType
    var interfaceName: string
    var pdpAddrsLen: nat
    const addrs: array<DataAddr>
    var mtu: nat

    function View(): CallInfo
      reads this, addrs
    {
      CallInfo(failureCause, suggestedRetryTime, cid, phyLinkState, pdpType, interfaceName, pdpAddrsLen, addrs[..], mtu)
    }

    /** A zeroed record. */
    constructor ()
      ensures fresh(addrs) && addrs[..] == ZeroAddrs()
    {
      failureCause, suggestedRetryTime, cid, phyLinkState, pdpAddrsLen, mtu := 0, 0, 0, 0, 0, 0;
      pdpType, interfaceName := PdpNone, "";
      addrs := new DataAddr[FIELDS](_ => ZERO_ADDR);
    }

    method RilIpAddrToUrilDataAddr(addr: Option<string>, at: nat, ulongMax: nat, ghost parse: string -> Parsed)
      returns (found: bool, end: string, aborted: bool)
      requires at < addrs.Length && IsParser(parse, ulongMax)
      modifies addrs
      ensures found <==> addr.Some? && parse(addr.value).Address?
      ensures found ==> end == parse(addr.value).rest
      ensures PutStored(old(addrs[..]), at, addr, parse) == if aborted then None else Some(addrs[..])
    {
      found, end, aborted := false, "", false;
      if addr.None? {
        addrs[at] := ZERO_ADDR;
        return;
      }
      var p := addr.value;
      while p != "" && p[0] == ' '
        invariant ParseAddr(p, ulongMax) == ParseAddr(addr.value, ulongMax)
        invariant addrs[..] == old(addrs[..])
        decreases |p|
      {
        assert p == " " + p[1..];
        BlankIsSkipped(p[1..], ulongMax);
        p := p[1..];
      }
      var token := Span(p, InAddress);
      var text, u := token.0, token.1;
      if text == "" {
        assert addrs[..] == old(addrs[..])[at := old(addrs[at])];
        return;
      }
      if |text| >= URIL_DATA_MAX_ADDR_LEN {
        aborted := true;
        return;
      }
      found := true;
      if u == "" || u[0] != '/' {
        end := if u == "" then "" else u[1..];
        addrs[at] := DataAddr(text, if ':' in text then 128 else 32);
      } else {
        var n := StrToUl(u[1..], ulongMax);
        end := n.rest;
        addrs[at] := DataAddr(text, ToUint32(n.value));
      }
    }

    method StorePdpAddrs(addresses: string, ulongMax: nat, ghost parse: string -> Parsed) returns (aborted: bool)
      requires addrs.Length == FIELDS && IsParser(parse, ulongMax)
      modifies this`pdpAddrsLen, addrs
      ensures var r := StoreFrom(old(addrs[..]), 0, addresses, parse);
              aborted == r.tooLong && (!aborted ==> pdpAddrsLen == r.len && addrs[..] == r.mem)
    {
      ghost var whole := StoreFrom(addrs[..], 0, addresses, parse);
      pdpAddrsLen := 0;
      var found, end, tooLong := RilIpAddrToUrilDataAddr(Some(addresses), 0, ulongMax, parse);
      assert parse(addresses).NoAddress? ==> addrs[..] == old(addrs[..]);
      while !tooLong && found && pdpAddrsLen < URIL_DATA_MAX_ADDR_COUNT
        invariant pdpAddrsLen <= URIL_DATA_MAX_ADDR_COUNT
        invariant tooLong ==> whole.tooLong
        invariant !tooLong ==>
                    whole == if found && pdpAddrsLen < URIL_DATA_MAX_ADDR_COUNT
                             then StoreFrom(addrs[..], pdpAddrsLen + 1, end, parse)
                             else Stores(addrs[..], pdpAddrsLen, false)
        decreases URIL_DATA_MAX_ADDR_COUNT - pdpAddrsLen
      {
        pdpAddrsLen := pdpAddrsLen + 1;
        ghost var before := addrs[..];
        found, end, tooLong := RilIpAddrToUrilDataAddr(Some(end), pdpAddrsLen, ulongMax, parse);
        assert !tooLong && !found ==> addrs[..] == before;
      }
      aborted := tooLong;
    }

    method StoreOtherAddrs(call: RilDataCall, ulongMax: nat, ghost parse: string -> Parsed) returns (aborted: bool)
      requires addrs.Length == FIELDS && IsParser(parse, ulongMax)
      modifies addrs
      ensures OthersAfter(old(addrs[..]), call, parse) == if aborted then None else Some(addrs[..])
    {
      aborted := true;
      var _, _, failed := RilIpAddrToUrilDataAddr(call.gateways, GTWY, ulongMax, parse);
      if failed {
        return;
      }
      var found, rest, dnsFailed := RilIpAddrToUrilDataAddr(call.dnses, DNSP, ulongMax, parse);
      if dnsFailed {
        return;
      }
      if found {
        var _, _, secondFailed := RilIpAddrToUrilDataAddr(Some(rest), DNSS, ulongMax, parse);
        if secondFailed {
          return;
        }
      }
      var _, _, lastFailed := RilIpAddrToUrilDataAddr(call.pcscf, PCSCF, ulongMax, parse);
      aborted := lastFailed;
    }

    method StoreAddrs(call: RilDataCall, ulongMax: nat, ghost parse: string -> Parsed) returns (aborted: bool)
      requires addrs.Length == FIELDS && IsParser(parse, ulongMax)
      modifies this`pdpAddrsLen, addrs
      ensures AddrsAfter(old(addrs[..]), call, parse) == if aborted then None else Some(addrs[..])
      ensures !aborted ==> pdpAddrsLen == Min(|PdpList(call, parse).addrs|, URIL_DATA_MAX_ADDR_COUNT)
    {
      pdpAddrsLen := 0;
      ghost var list := PdpList(call, parse).addrs;
      if call.addresses.Some? {
        StoresTheList(addrs[..], 0, call.addresses.value, parse);
        assert addrs[..][..0] + list == list;
        aborted := StorePdpAddrs(call.addresses.value, ulongMax, parse);
        if aborted {
          return;
        }
      }
      assert addrs[..] == list + old(addrs[..])[|list|..];
      aborted := StoreOtherAddrs(call, ulongMax, parse);
    }

    /** The conversion of a whole record; aborted stands for a failed assertion. */
    method FromRil(call: RilDataCall, cause: int -> int, ulongMax: nat, ghost parse: string -> Parsed)
      returns (aborted: bool)
      requires addrs.Length == FIELDS && addrs[..] == ZeroAddrs() && IsParser(parse, ulongMax)
      modifies this, addrs
      ensures InfoOf(call, cause, parse) == if aborted then None else Some(View())
    {
      aborted := true;
      failureCause := cause(call.status);
      suggestedRetryTime := ToUint16(call.suggestedRetryTime);
      cid := ToUint8(call.cid);
      if call.active !in {0, 1, 2} {
        return;
      }
      phyLinkState := call.active;
      pdpType := PdpTypeOf(call.pdpType);
      interfaceName := NameOf(call.ifname);
      aborted := StoreAddrs(call, ulongMax, parse);
      mtu := ToUint16(call.mtu);
    }
  }

  function PdpTypeOf(s: Option<string>): PdpType {
    if s == Some("IP") then Ip
    else if s == Some("IPV6") then Ipv6
    else if s == Some("IPV4V6") then Ipv4v6
    else if s == Some("PPP") then Ppp
    else PdpNone
  }

  /** snprintf into the interface name's buffer. */
  function NameOf(s: Option<string>): string {
    if s.None? then "" else s.value[..Min(|s.value|, URIL_DATA_MAX_DEVICE_NAME_LEN - 1)]
  }
}
