/** Address lists as a vendor data call record holds them: the parser, the printer and the way there and back. */
module Addresses {
  import opened Basics
  import opened Decimal

  const URIL_DATA_MAX_ADDR_LEN: nat := 256
  const URIL_DATA_MAX_ADDR_COUNT: nat := 4

  datatype DataAddr = DataAddr(addr: string, prefixLen: nat)

  const ZERO_ADDR := DataAddr("", 0)

  predicate IsBlank(c: char) {
    c == ' '
  }

  predicate InAddress(c: char) {
    c != ' ' && c != '/'
  }

  function DefaultPrefix(addr: string): nat {
    if ':' in addr then 128 else 32
  }

  /** TooLong stands for the failed assertion on the length. */
  datatype Parsed = NoAddress | TooLong | Address(a: DataAddr, rest: string)

  /** The prefix and the rest, from the text u behind an address. */
  function AfterAddress(addr: string, u: string, ulongMax: nat): (r: Parsed)
    ensures r.Address? && |r.rest| <= |u| && r.a.addr == addr && r.a.prefixLen < UINT32
  {
    if u == "" then Address(DataAddr(addr, DefaultPrefix(addr)), "")
    else if u[0] != '/' then Address(DataAddr(addr, DefaultPrefix(addr)), u[1..])
    else
      var p := StrToUl(u[1..], ulongMax);
      Address(DataAddr(addr, ToUint32(p.value)), p.rest)
  }

  /** rilIpAddrToUrilDataAddr on a non-null address. What it parses it consumes. */
  function ParseAddr(s: string, ulongMax: nat): (r: Parsed)
    ensures r.Address? ==> |r.rest| < |s| && r.a.addr != "" && r.a.prefixLen < UINT32
  {
    var r := Span(Span(s, IsBlank).1, InAddress);
    if r.0 == "" then NoAddress
    else if |r.0| >= URIL_DATA_MAX_ADDR_LEN then TooLong
    else AfterAddress(r.0, r.1, ulongMax)
  }

  /** The parser as a value, so that lists can be reasoned about without its definition. */
  function Parser(ulongMax: nat): string -> Parsed {
    (s: string) => ParseAddr(s, ulongMax)
  }

  ghost predicate IsParser(parse: string -> Parsed, ulongMax: nat) {
    forall s: string {:trigger ParseAddr(s, ulongMax)} :: parse(s) == ParseAddr(s, ulongMax)
  }

  datatype ParsedList = ParsedList(addrs: seq<DataAddr>, tooLong: bool)

  /** The first addresses of a list, at most `limit` of them. */
  function ParseUpTo(s: string, limit: nat, parse: string -> Parsed): (r: ParsedList)
    ensures |r.addrs| <= limit
    decreases limit
  {
    if limit == 0 then ParsedList([], false)
    else match parse(s)
      case NoAddress => ParsedList([], false)
      case TooLong => ParsedList([], true)
      case Address(a, rest) =>
        var more := ParseUpTo(rest, limit - 1, parse);
        ParsedList([a] + more.addrs, more.tooLong)
  }

  // Printing, the inverse of parsing.

  datatype Entry = Entry(addr: string, prefixLen: Option<nat>)

  predicate Printable(e: Entry) {
    && 0 < |e.addr| < URIL_DATA_MAX_ADDR_LEN
    && All(e.addr, InAddress)
    && (e.prefixLen.Some? ==> e.prefixLen.value < UINT32)
  }

  function PrintEntry(e: Entry): string {
    match e.prefixLen
    case None => e.addr
    case Some(n) => e.addr + ("/" + PrintNat(n))
  }

  function PrintList(es: seq<Entry>): string {
    if es == [] then ""
    else if |es| == 1 then PrintEntry(es[0])
    else PrintEntry(es[0]) + (" " + PrintList(es[1..]))
  }

  function Meaning(e: Entry): DataAddr {
    DataAddr(e.addr, if e.prefixLen.Some? then e.prefixLen.value else if ':' in e.addr then 128 else 32)
  }

  /** The meanings of the first entries, at most `limit` of them. */
  function Meanings(es: seq<Entry>, limit: nat): (r: seq<DataAddr>)
    ensures |r| == Min(|es|, limit)
    ensures forall i :: 0 <= i < |r| ==> r[i] == Meaning(es[i])
  {
    if limit == 0 || es == [] then [] else [Meaning(es[0])] + Meanings(es[1..], limit - 1)
  }

  lemma BlankIsSkipped(s: string, ulongMax: nat)
    ensures ParseAddr(" " + s, ulongMax) == ParseAddr(s, ulongMax)
  {
    assert (" " + s)[1..] == s;
  }

  lemma ParsesAddress(addr: string, u: string, ulongMax: nat)
    requires 0 < |addr| < URIL_DATA_MAX_ADDR_LEN && All(addr, InAddress)
    requires u == "" || !InAddress(u[0])
    ensures ParseAddr(addr + u, ulongMax) == AfterAddress(addr, u, ulongMax)
  {
    assert (addr + u)[0] == addr[0];
    SpanIs(addr, u, InAddress);
  }

  lemma ParsesPrefix(addr: string, d: string, tail: string, ulongMax: nat)
    requires d != "" && All(d, IsDigit) && Value(d) < UINT32 && IsUlongMax(ulongMax)
    requires tail == "" || tail[0] == ' '
    ensures AfterAddress(addr, "/" + (d + tail), ulongMax) == Address(DataAddr(addr, Value(d)), tail)
  {
    assert ("/" + (d + tail))[1..] == d + tail;
    ScansBareDigits(d, tail, ulongMax);
  }

  lemma ParsesLastEntry(e: Entry, ulongMax: nat)
    requires Printable(e) && IsUlongMax(ulongMax)
    ensures ParseAddr(PrintEntry(e), ulongMax) == Address(Meaning(e), "")
  {
    match e.prefixLen {
      case None =>
        ParsesAddress(e.addr, "", ulongMax);
        assert e.addr + "" == e.addr;
      case Some(n) =>
        var d := PrintNat(n);
        ValueOfPrint(n);
        ParsesPrefix(e.addr, d, "", ulongMax);
        assert d + "" == d;
        ParsesAddress(e.addr, "/" + d, ulongMax);
    }
  }

  /** Behind a printed entry the separating blank may or may not be consumed. */
  function Behind(e: Entry, more: string): Parsed {
    Address(Meaning(e), if e.prefixLen.None? then more else " " + more)
  }

  lemma ParsesEntry(e: Entry, more: string, ulongMax: nat)
    requires Printable(e) && IsUlongMax(ulongMax)
    ensures ParseAddr(PrintEntry(e) + (" " + more), ulongMax) == Behind(e, more)
  {
    var tail := " " + more;
    match e.prefixLen {
      case None =>
        ParsesAddress(e.addr, tail, ulongMax);
      case Some(n) =>
        var d := PrintNat(n);
        var u := "/" + (d + tail);
        assert PrintEntry(e) + tail == e.addr + u;
        ParsesAddress(e.addr, u, ulongMax);
        ValueOfPrint(n);
        ParsesPrefix(e.addr, d, tail, ulongMax);
    }
  }

  /** What the list proof needs to know about the parser. */
  ghost predicate ParsesEntries(parse: string -> Parsed) {
    && parse("").NoAddress?
    && (forall s: string {:trigger parse(" " + s)} :: parse(" " + s) == parse(s))
    && (forall e {:trigger PrintEntry(e)} :: Printable(e) ==> parse(PrintEntry(e)) == Address(Meaning(e), ""))
    && (forall e, more: string {:trigger Behind(e, more)} ::
          Printable(e) ==> parse(PrintEntry(e) + (" " + more)) == Behind(e, more))
  }

  lemma ParserParsesEntries(ulongMax: nat)
    requires IsUlongMax(ulongMax)
    ensures ParsesEntries(Parser(ulongMax))
  {
    var parse := Parser(ulongMax);
    forall s: string ensures parse(" " + s) == parse(s) {
      BlankIsSkipped(s, ulongMax);
    }
    forall e | Printable(e) ensures parse(PrintEntry(e)) == Address(Meaning(e), "") {
      ParsesLastEntry(e, ulongMax);
    }
    forall e, more: string | Printable(e) ensures parse(PrintEntry(e) + (" " + more)) == Behind(e, more) {
      ParsesEntry(e, more, ulongMax);
    }
  }

  lemma BlankBeforeList(s: string, limit: nat, parse: string -> Parsed)
    requires parse(" " + s) == parse(s)
    ensures ParseUpTo(" " + s, limit, parse) == ParseUpTo(s, limit, parse)
  {}

  lemma {:induction false} ParsesList(es: seq<Entry>, limit: nat, parse: string -> Parsed)
    requires (forall i :: 0 <= i < |es| ==> Printable(es[i])) && ParsesEntries(parse)
    ensures ParseUpTo(PrintList(es), limit, parse) == ParsedList(Meanings(es, limit), false)
    decreases limit
  {
    if es != [] && limit > 0 {
      var more := PrintList(es[1..]);
      ParsesList(es[1..], limit - 1, parse);
      if |es| > 1 {
        BlankBeforeList(more, limit - 1, parse);
        assert parse(PrintEntry(es[0]) + (" " + more)) == Behind(es[0], more);
      }
    }
  }

  /** Parsing a printed list gives the list back, as far as asked for. */
  lemma ParsesPrintedList(es: seq<Entry>, limit: nat, ulongMax: nat)
    requires (forall i :: 0 <= i < |es| ==> Printable(es[i])) && IsUlongMax(ulongMax)
    ensures ParseUpTo(PrintList(es), limit, Parser(ulongMax)) == ParsedList(Meanings(es, limit), false)
  {
    ParserParsesEntries(ulongMax);
    ParsesList(es, limit, Parser(ulongMax));
  }
}
