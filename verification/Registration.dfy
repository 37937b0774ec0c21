/** Vendor answers to the three registration queries, and what they leave in the response. */
module Registration {
  import opened Basics
  import opened Decimal
  import opened Protocol
  import opened Scan
  import opened CallList
  import opened DataCall

  datatype RadioTech =
    | TechUnknown | Gprs | Edge | Umts | Is95a | Is95b | OneXRtt | Evdo0 | EvdoA | Hsdpa | Hsupa | Hspa
    | EvdoB | Ehrpd | Lte | Hspap | Gsm | TdScdma | Iwlan
    | Unlisted

  /** What ril.h and the machine decide: the width of unsigned long, the sizes of the data call
      records, what the bytes of a record of full size say, which number stands for which radio technology
      and for which network preference, and the table of failure causes. */
  datatype Platform = Platform(ulongMax: nat, layout: Layout, unpack: seq<Byte> -> RilDataCall,
                               tech: int -> RadioTech, preference: int -> Option<nat>, cause: int -> int) {
    ghost predicate Valid() {
      IsUlongMax(ulongMax) && layout.Valid()
    }
  }

  /** None is the failed assertion of the default branch. */
  function UrilRat(t: RadioTech): Option<nat> {
    match t
    case TechUnknown => Some(0)
    case TdScdma => Some(1)
    case Gsm => Some(2)
    case Hspap => Some(3)
    case Lte => Some(4)
    case Ehrpd => Some(5)
    case EvdoB => Some(6)
    case Hspa => Some(7)
    case Hsupa => Some(8)
    case Hsdpa => Some(9)
    case EvdoA => Some(10)
    case Evdo0 => Some(11)
    case OneXRtt => Some(12)
    case Is95b => Some(13)
    case Is95a => Some(14)
    case Umts => Some(15)
    case Edge => Some(16)
    case Gprs => Some(17)
    case Iwlan => Some(18)
    case Unlisted => None
  }

  const SERVICE_NONE: nat := 0
  const SERVICE_LIMITED: nat := 1
  const SERVICE_FULL: nat := 2

  datatype NwReg = RegAborted | RegRefused | Reg(info: RegInfo)

  function RilNwRegToUrilNwReg(p: Platform, regState: Option<string>, radioTech: Option<string>): NwReg {
    var state, tech := RilStrToInt(regState, p.ulongMax), RilStrToInt(radioTech, p.ulongMax);
    if state.None? || tech.None? then RegRefused
    else
      var rat := UrilRat(p.tech(tech.value));
      var limited := if state.value < 10 then SERVICE_NONE else SERVICE_LIMITED;
      if rat.None? then RegAborted
      else if state.value in {0, 2, 4, 10, 12, 14} then Reg(RegInfo(rat.value, false, false, limited))
      else if state.value in {3, 13} then Reg(RegInfo(rat.value, false, true, limited))
      else if state.value in {1, 5} then Reg(RegInfo(rat.value, state.value == 5, false, SERVICE_FULL))
      else RegAborted
  }

  /** An int that keeps -1 when the text is refused. */
  function IntOr(s: Option<string>, p: Platform): int {
    var r := RilStrToInt(s, p.ulongMax);
    if r.Some? then r.value else -1
  }

  function Item(strings: Strings, k: nat): Option<string> {
    if k < |strings| then strings[k] else None
  }

  function RilCellToUrilCellVoice(p: Platform, st: RegStatus, radioTech: Option<string>, lac: Option<string>,
                                  cid: Option<string>, psc: Option<string>): RegStatus
  {
    var rat := RilStrToInt(radioTech, p.ulongMax);
    if rat.None? then st
    else match p.tech(rat.value)
      case Gprs | Edge | Gsm =>
        st.(gsm := st.gsm.(follows := true, lac := ToUint16(IntOr(lac, p)), cid := ToUint32(IntOr(cid, p))))
      case Umts | Hsdpa | Hsupa | Hspa | Hspap =>
        st.(wcdma := st.wcdma.(follows := true, lac := ToUint16(IntOr(lac, p)), cid := ToUint32(IntOr(cid, p)),
                               psc := ToUint16(IntOr(psc, p))))
      case TdScdma =>
        st.(tdscdma := st.tdscdma.(follows := true, lac := ToUint16(IntOr(lac, p)), cid := ToUint32(IntOr(cid, p))))
      case _ => st
  }

  function RilCellToUrilCellData(p: Platform, st: RegStatus, radioTech: Option<string>, tac: Option<string>,
                                 cid: Option<string>, eci: Option<string>): RegStatus
  {
    var rat := RilStrToInt(radioTech, p.ulongMax);
    if rat.None? then st
    else match p.tech(rat.value)
      case Lte =>
        st.(lte := st.lte.(follows := true, tac := ToUint16(IntOr(tac, p)), ci := ToUint32(IntOr(eci, p)),
                           pci := ToUint16(IntOr(cid, p))))
      case _ => st
  }

  function RegOf(p: Platform, strings: Strings): NwReg {
    RilNwRegToUrilNwReg(p, Item(strings, 0), Item(strings, 3))
  }

  /** A successful answer to the voice registration query; None is a failed assertion. */
  function AfterVoice(p: Platform, st: RegStatus, strings: Strings): Option<RegStatus> {
    var reg := RegOf(p, strings);
    if reg.RegAborted? then None
    else
      var st' := if reg.Reg? then st.(voiceFollows := true, voice := reg.info) else st.(voiceFollows := false);
      Some(RilCellToUrilCellVoice(p, st', Item(strings, 3), Item(strings, 1), Item(strings, 2), Item(strings, 14)))
  }

  /** A successful answer to the data registration query. */
  function AfterData(p: Platform, st: RegStatus, strings: Strings): Option<RegStatus> {
    var reg := RegOf(p, strings);
    if reg.RegAborted? then None
    else
      var st' := if reg.Reg? then st.(dataFollows := true, data := reg.info) else st.(dataFollows := false);
      Some(RilCellToUrilCellData(p, st', Item(strings, 3), Item(strings, 1), Item(strings, 2), Item(strings, 14)))
  }

  /** A successful answer to the operator query: one cell gets its operator's number. */
  function AfterOperator(st: RegStatus, strings: Strings): RegStatus {
    match Item(strings, 2)
    case None => st
    case Some(n) =>
      if st.gsm.follows then st.(gsm := st.gsm.(mcc := Mcc(n), mnc := Mnc(n)))
      else if st.wcdma.follows then st.(wcdma := st.wcdma.(mcc := Mcc(n), mnc := Mnc(n)))
      else if st.lte.follows then st.(lte := st.lte.(mcc := Mcc(n), mnc := Mnc(n)))
      else if st.tdscdma.follows then st.(tdscdma := st.tdscdma.(mcc := Mcc(n), mnc := Mnc(n)))
      else st
  }

  /** Everything but the operator numbers of the cells. */
  function WithoutPlmn(st: RegStatus): RegStatus {
    st.(gsm := st.gsm.(mcc := "", mnc := ""), wcdma := st.wcdma.(mcc := "", mnc := ""),
        lte := st.lte.(mcc := "", mnc := ""), tdscdma := st.tdscdma.(mcc := "", mnc := ""))
  }

  /** How many cells carry another operator number in t than in s. */
  function PlmnChanges(s: RegStatus, t: RegStatus): nat {
    (if s.gsm != t.gsm then 1 else 0) + (if s.wcdma != t.wcdma then 1 else 0)
    + (if s.lte != t.lte then 1 else 0) + (if s.tdscdma != t.tdscdma then 1 else 0)
  }

  lemma VoiceWritesItsOwn(p: Platform, st: RegStatus, strings: Strings)
    requires AfterVoice(p, st, strings).Some?
    ensures var st' := AfterVoice(p, st, strings).value;
            && st'.data == st.data && st'.dataFollows == st.dataFollows && st'.lte == st.lte
            && (st'.voiceFollows <==> RegOf(p, strings).Reg?)
            && (st'.voiceFollows ==> st'.voice == RegOf(p, strings).info)
  {}

  lemma DataWritesItsOwn(p: Platform, st: RegStatus, strings: Strings)
    requires AfterData(p, st, strings).Some?
    ensures var st' := AfterData(p, st, strings).value;
            && st'.voice == st.voice && st'.voiceFollows == st.voiceFollows
            && st'.gsm == st.gsm && st'.wcdma == st.wcdma && st'.tdscdma == st.tdscdma
            && (st'.dataFollows <==> RegOf(p, strings).Reg?)
            && (st'.dataFollows ==> st'.data == RegOf(p, strings).info)
  {}

  /** The split of an operator's number between country and network. */
  predicate SplitOf(mcc: string, mnc: string, number: string) {
    |mcc| == 3 && mcc + mnc == number
  }

  /** The first cell that follows, in the order GSM, WCDMA, LTE, TD-SCDMA, gets the number; the others, and all
      of them without a number, stay as they are. */
  lemma OperatorNumberIsKept(st: RegStatus, strings: Strings, r: RegStatus)
    requires r == AfterOperator(st, strings)
    ensures |strings| < 3 || strings[2].None? ==> r == st
    ensures |strings| >= 3 && strings[2].Some? && 5 <= |strings[2].value| <= 6 ==>
              var n := strings[2].value;
              && (st.gsm.follows ==> SplitOf(r.gsm.mcc, r.gsm.mnc, n))
              && (!st.gsm.follows && st.wcdma.follows ==> SplitOf(r.wcdma.mcc, r.wcdma.mnc, n))
              && (!st.gsm.follows && !st.wcdma.follows && st.lte.follows ==> SplitOf(r.lte.mcc, r.lte.mnc, n))
              && (!st.gsm.follows && !st.wcdma.follows && !st.lte.follows && st.tdscdma.follows ==>
                    SplitOf(r.tdscdma.mcc, r.tdscdma.mnc, n))
    ensures !st.gsm.follows ==> r.gsm == st.gsm
    ensures st.gsm.follows || !st.wcdma.follows ==> r.wcdma == st.wcdma
    ensures st.gsm.follows || st.wcdma.follows || !st.lte.follows ==> r.lte == st.lte
    ensures st.gsm.follows || st.wcdma.follows || st.lte.follows || !st.tdscdma.follows ==> r.tdscdma == st.tdscdma
  {
    if |strings| >= 3 && strings[2].Some? && 5 <= |strings[2].value| <= 6 {
      NumberSplits(strings[2].value);
    }
  }

  lemma NumberSplits(n: string)
    requires 5 <= |n| <= 6
    ensures SplitOf(Mcc(n), Mnc(n), n)
  {
    assert n == n[..3] + n[3..];
  }

  /** The technology behind a reported number: the table backwards. */
  function TechOf(rat: nat): Option<RadioTech> {
    match rat
    case 0 => Some(TechUnknown)
    case 1 => Some(TdScdma)
    case 2 => Some(Gsm)
    case 3 => Some(Hspap)
    case 4 => Some(Lte)
    case 5 => Some(Ehrpd)
    case 6 => Some(EvdoB)
    case 7 => Some(Hspa)
    case 8 => Some(Hsupa)
    case 9 => Some(Hsdpa)
    case 10 => Some(EvdoA)
    case 11 => Some(Evdo0)
    case 12 => Some(OneXRtt)
    case 13 => Some(Is95b)
    case 14 => Some(Is95a)
    case 15 => Some(Umts)
    case 16 => Some(Edge)
    case 17 => Some(Gprs)
    case 18 => Some(Iwlan)
    case _ => None
  }

  lemma TechRoundTrip(t: RadioTech)
    ensures UrilRat(t).Some? <==> !t.Unlisted?
    ensures !t.Unlisted? ==> TechOf(UrilRat(t).value) == Some(t)
  {}

  lemma OperatorWritesOnePlmn(st: RegStatus, strings: Strings)
    ensures WithoutPlmn(AfterOperator(st, strings)) == WithoutPlmn(st)
    ensures PlmnChanges(st, AfterOperator(st, strings)) <= 1
  {}
}
