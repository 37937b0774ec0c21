/** What a converted data call says, field by field, when the vendor prints its address lists. */
module DataCallReadings {
  import opened Basics
  import opened Decimal
  import opened Addresses
  import opened DataCall

  predicate AllPrintable(es: seq<Entry>) {
    forall i :: 0 <= i < |es| ==> Printable(es[i])
  }

  /** The first two parses of a printed list. */
  lemma {:induction false} FirstTwoParses(es: seq<Entry>, ulongMax: nat, first: Parsed)
    requires AllPrintable(es) && IsUlongMax(ulongMax) && first == ParseAddr(PrintList(es), ulongMax)
    ensures es == [] ==> first.NoAddress?
    ensures es != [] ==> first.Address? && first.a == Meaning(es[0])
    ensures |es| == 1 ==> ParseAddr(first.rest, ulongMax).NoAddress?
    ensures |es| >= 2 ==>
              ParseAddr(first.rest, ulongMax).Address? && ParseAddr(first.rest, ulongMax).a == Meaning(es[1])
  {
    var parse := Parser(ulongMax);
    ParsesPrintedList(es, 2, ulongMax);
    var list := ParseUpTo(PrintList(es), 2, parse);
    assert parse(PrintList(es)) == first;
    if es != [] {
      var more := ParseUpTo(first.rest, 1, parse);
      assert list.addrs == [first.a] + more.addrs && list.tooLong == more.tooLong;
      var second := ParseAddr(first.rest, ulongMax);
      assert parse(first.rest) == second;
      SecondIs(es, first.a, more.addrs);
      OneParse(first.rest, parse, second, more);
    }
  }

  lemma OneParse(s: string, parse: string -> Parsed, r: Parsed, list: ParsedList)
    requires r == parse(s) && list == ParseUpTo(s, 1, parse)
    ensures list.addrs == [] && !list.tooLong ==> r.NoAddress?
    ensures list.addrs != [] ==> r.Address? && list.addrs == [r.a]
  {
    if r.Address? {
      assert ParseUpTo(r.rest, 0, parse) == ParsedList([], false);
    }
  }

  lemma SecondIs(es: seq<Entry>, a: DataAddr, more: seq<DataAddr>)
    requires es != [] && Meanings(es, 2) == [a] + more
    ensures a == Meaning(es[0]) && (|es| == 1 ==> more == []) && (|es| >= 2 ==> more == [Meaning(es[1])])
  {
    var both := Meanings(es, 2);
    assert both[0] == a && |both| == 1 + |more|;
    if |es| >= 2 {
      assert both[1] == more[0];
    }
  }

  // The fields behind the packet data addresses.

  lemma BehindTheList(list: seq<DataAddr>, i: nat)
    requires |list| <= 5 && 5 <= i < 8
    ensures (list + ZeroAddrs()[|list|..])[i] == ZERO_ADDR
  {}

  /** What the fields hold, by the parses of their texts. */
  lemma NameServerFields(mem: seq<DataAddr>, call: RilDataCall, parse: string -> Parsed, r: seq<DataAddr>)
    requires |mem| == FIELDS && OthersAfter(mem, call, parse) == Some(r)
    requires mem[DNSP] == ZERO_ADDR && mem[DNSS] == ZERO_ADDR
    ensures call.dnses.None? ==> r[DNSP] == ZERO_ADDR && r[DNSS] == ZERO_ADDR
    ensures call.dnses.Some? && !parse(call.dnses.value).Address? ==> r[DNSP] == ZERO_ADDR && r[DNSS] == ZERO_ADDR
    ensures call.dnses.Some? && parse(call.dnses.value).Address? ==>
              var second := parse(parse(call.dnses.value).rest);
              && r[DNSP] == parse(call.dnses.value).a
              && r[DNSS] == if second.Address? then second.a else ZERO_ADDR
  {}

  lemma AddrsBehindList(call: RilDataCall, cause: int -> int, parse: string -> Parsed, info: CallInfo)
    returns (mem: seq<DataAddr>)
    requires InfoOf(call, cause, parse) == Some(info)
    ensures |mem| == FIELDS && OthersAfter(mem, call, parse) == Some(info.addrs)
    ensures mem[DNSP] == ZERO_ADDR && mem[DNSS] == ZERO_ADDR && mem[PCSCF] == ZERO_ADDR
  {
    var list := PdpList(call, parse).addrs;
    mem := list + ZeroAddrs()[|list|..];
    BehindTheList(list, DNSP);
    BehindTheList(list, DNSS);
    BehindTheList(list, PCSCF);
  }

  /** Both name servers come from their own text, one after the other. */
  lemma NameServersAreStored(call: RilDataCall, cause: int -> int, ulongMax: nat, es: seq<Entry>, info: CallInfo)
    requires InfoOf(call, cause, Parser(ulongMax)) == Some(info) && IsUlongMax(ulongMax)
    requires AllPrintable(es) && (call.dnses == Some(PrintList(es)) || (call.dnses.None? && es == []))
    ensures info.addrs[DNSP] == if es == [] then ZERO_ADDR else Meaning(es[0])
    ensures info.addrs[DNSS] == if |es| < 2 then ZERO_ADDR else Meaning(es[1])
  {
    FirstTwoParses(es, ulongMax, ParseAddr(PrintList(es), ulongMax));
    var mem := AddrsBehindList(call, cause, Parser(ulongMax), info);
    NameServerFields(mem, call, Parser(ulongMax), info.addrs);
  }

  lemma PcscfIsStored(call: RilDataCall, cause: int -> int, ulongMax: nat, es: seq<Entry>, info: CallInfo)
    requires InfoOf(call, cause, Parser(ulongMax)) == Some(info) && IsUlongMax(ulongMax)
    requires AllPrintable(es) && (call.pcscf == Some(PrintList(es)) || (call.pcscf.None? && es == []))
    ensures info.addrs[PCSCF] == if es == [] then ZERO_ADDR else Meaning(es[0])
  {
    FirstTwoParses(es, ulongMax, ParseAddr(PrintList(es), ulongMax));
    BehindTheList(PdpList(call, Parser(ulongMax)).addrs, PCSCF);
  }

  /** A printed gateway is stored whatever the list before it was; none at all clears the field. */
  lemma PrintedGatewayIsStored(call: RilDataCall, cause: int -> int, ulongMax: nat, es: seq<Entry>, info: CallInfo)
    requires InfoOf(call, cause, Parser(ulongMax)) == Some(info) && IsUlongMax(ulongMax)
    requires AllPrintable(es)
    ensures call.gateways == Some(PrintList(es)) && es != [] ==> info.addrs[GTWY] == Meaning(es[0])
    ensures call.gateways.None? ==> info.addrs[GTWY] == ZERO_ADDR
  {
    FirstTwoParses(es, ulongMax, ParseAddr(PrintList(es), ulongMax));
  }

  /** The first four of a printed list of packet data addresses, and how many count. */
  lemma PrintedPdpAddrsAreStored(call: RilDataCall, cause: int -> int, ulongMax: nat, es: seq<Entry>, info: CallInfo)
    requires InfoOf(call, cause, Parser(ulongMax)) == Some(info) && IsUlongMax(ulongMax)
    requires AllPrintable(es) && call.addresses == Some(PrintList(es))
    ensures info.pdpAddrsLen == Min(|es|, 4)
    ensures forall i :: 0 <= i < |es| && i < 4 ==> info.addrs[i] == Meaning(es[i])
  {
    PrintedListIsStored(es, call, ulongMax);
  }

  lemma ScalarsAre(call: RilDataCall, cause: int -> int, parse: string -> Parsed, info: CallInfo)
    requires InfoOf(call, cause, parse) == Some(info)
    ensures info.failureCause == cause(call.status) && info.cid == ToUint8(call.cid) && info.mtu == ToUint16(call.mtu)
    ensures info.suggestedRetryTime == ToUint16(call.suggestedRetryTime)
    ensures 0 <= call.active <= 2 && info.phyLinkState == call.active
    ensures info.pdpType == PdpTypeOf(call.pdpType) && info.interfaceName == NameOf(call.ifname)
  {}

  /** The numbers and words of the record, as far as their fields reach. */
  lemma ScalarsAreKept(call: RilDataCall, cause: int -> int, ulongMax: nat, info: CallInfo)
    requires InfoOf(call, cause, Parser(ulongMax)) == Some(info)
    ensures info.failureCause == cause(call.status)
    ensures 0 <= call.cid < 256 ==> info.cid == call.cid
    ensures 0 <= call.mtu < 65536 ==> info.mtu == call.mtu
    ensures 0 <= call.suggestedRetryTime < 65536 ==> info.suggestedRetryTime == call.suggestedRetryTime
    ensures 0 <= call.active <= 2 && info.phyLinkState == call.active
    ensures call.pdpType == Some("IP") ==> info.pdpType == Ip
    ensures call.pdpType == Some("IPV6") ==> info.pdpType == Ipv6
    ensures call.pdpType == Some("IPV4V6") ==> info.pdpType == Ipv4v6
    ensures call.pdpType == Some("PPP") ==> info.pdpType == Ppp
    ensures call.pdpType.None? || call.pdpType.value !in {"IP", "IPV6", "IPV4V6", "PPP"} ==> info.pdpType == PdpNone
    ensures call.ifname.None? ==> info.interfaceName == ""
    ensures call.ifname.Some? ==> info.interfaceName == call.ifname.value[..Min(|call.ifname.value|, 12)]
  {
    ScalarsAre(call, cause, Parser(ulongMax), info);
    SmallNumbersFit(call.cid);
    SmallNumbersFit(call.mtu);
    SmallNumbersFit(call.suggestedRetryTime);
    WordsAre(call.pdpType, info.pdpType);
  }

  lemma SmallNumbersFit(n: int)
    ensures 0 <= n < 256 ==> ToUint8(n) == n
    ensures 0 <= n < 65536 ==> ToUint16(n) == n
  {}

  lemma WordsAre(word: Option<string>, t: PdpType)
    requires t == PdpTypeOf(word)
    ensures word == Some("IP") ==> t == Ip
    ensures word == Some("IPV6") ==> t == Ipv6
    ensures word == Some("IPV4V6") ==> t == Ipv4v6
    ensures word == Some("PPP") ==> t == Ppp
    ensures word.None? || word.value !in {"IP", "IPV6", "IPV4V6", "PPP"} ==> t == PdpNone
  {}

  /** A record is converted exactly if its link state is listed and none of its addresses is too long. */
  lemma ConvertedIff(call: RilDataCall, cause: int -> int, ulongMax: nat)
    ensures InfoOf(call, cause, Parser(ulongMax)).Some? <==>
              && 0 <= call.active <= 2
              && !PdpList(call, Parser(ulongMax)).tooLong
              && !TooLongIn(call.gateways, ulongMax) && !TooLongIn(call.pcscf, ulongMax)
              && !TooLongIn(call.dnses, ulongMax)
              && !(call.dnses.Some? && ParseAddr(call.dnses.value, ulongMax).Address?
                   && TooLongIn(Some(ParseAddr(call.dnses.value, ulongMax).rest), ulongMax))
  {
    assert forall s: string :: Parser(ulongMax)(s) == ParseAddr(s, ulongMax);
  }

  predicate TooLongIn(s: Option<string>, ulongMax: nat) {
    s.Some? && ParseAddr(s.value, ulongMax).TooLong?
  }
}
