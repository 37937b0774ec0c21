/** What the registration answers mean when the vendor prints plain numbers into them. */
module RegistrationReadings {
  import opened Basics
  import opened Decimal
  import opened Protocol
  import opened Scan
  import opened Registration

  predicate IsInt32(n: int) {
    -0x8000_0000 <= n < 0x8000_0000
  }

  const NO_SERVICE: set<int> := {0, 2, 3, 4}
  const EMERGENCY_ONLY: set<int> := {10, 12, 13, 14}
  const REGISTERED: set<int> := {1, 5}

  lemma StateMeans(p: Platform, stateText: Option<string>, techText: Option<string>, state: int, tech: int, r: NwReg)
    requires RilStrToInt(stateText, p.ulongMax) == Some(state) && RilStrToInt(techText, p.ulongMax) == Some(tech)
    requires r == RilNwRegToUrilNwReg(p, stateText, techText)
    ensures !r.RegRefused?
    ensures r.Reg? <==> state in NO_SERVICE + EMERGENCY_ONLY + REGISTERED && !p.tech(tech).Unlisted?
    ensures r.Reg? ==> TechOf(r.info.rat) == Some(p.tech(tech))
    ensures r.Reg? ==> (r.info.roaming <==> state == 5) && (r.info.denied <==> state == 3 || state == 13)
    ensures r.Reg? ==>
              && (r.info.service == SERVICE_NONE <==> state in {0, 2, 3, 4})
              && (r.info.service == SERVICE_LIMITED <==> state in {10, 12, 13, 14})
              && (r.info.service == SERVICE_FULL <==> state in {1, 5})
  {
    TechRoundTrip(p.tech(tech));
  }

  /** A printed state is understood exactly when ril.h lists it and the technology; roaming is state 5,
      denied 3 or 13; service is none, limited or full. */
  lemma PrintedStateIsUnderstood(p: Platform, strings: Strings, state: int, tech: int)
    requires p.Valid() && IsInt32(state) && IsInt32(tech)
    requires Item(strings, 0) == Some(PrintInt(state)) && Item(strings, 3) == Some(PrintInt(tech))
    ensures var r := RegOf(p, strings);
            && !r.RegRefused?
            && (r.Reg? <==> state in NO_SERVICE + EMERGENCY_ONLY + REGISTERED && !p.tech(tech).Unlisted?)
            && (r.Reg? ==>
                  && TechOf(r.info.rat) == Some(p.tech(tech))
                  && (r.info.roaming <==> state == 5) && (r.info.denied <==> state == 3 || state == 13)
                  && (r.info.service == SERVICE_NONE <==> state in {0, 2, 3, 4})
                  && (r.info.service == SERVICE_LIMITED <==> state in {10, 12, 13, 14})
                  && (r.info.service == SERVICE_FULL <==> state in {1, 5}))
  {
    DecimalRoundTrip(state, p.ulongMax);
    DecimalRoundTrip(tech, p.ulongMax);
    StateMeans(p, Item(strings, 0), Item(strings, 3), state, tech, RegOf(p, strings));
  }

  lemma SignedKeepsBits(n: nat)
    requires n < UINT32
    ensures ToUint32(ToInt32(n)) == n
    ensures n < UINT16 ==> ToUint16(ToInt32(n)) == n
  {
    if n >= 0x8000_0000 {
      assert ToInt32(n) == n - UINT32;
    } else {
      assert ToInt32(n) == n;
    }
  }

  /** A number below 2^32 survives the way through a signed int. */
  lemma UnsignedReads(p: Platform, n: nat)
    requires p.Valid() && n < UINT32
    ensures ToUint32(IntOr(Some(PrintNat(n)), p)) == n
    ensures n < UINT16 ==> ToUint16(IntOr(Some(PrintNat(n)), p)) == n
  {
    PrintedNatIsAccepted("", n, p.ulongMax);
    assert "" + PrintNat(n) == PrintNat(n);
    SignedKeepsBits(n);
  }

  /** A number that cannot be read is reported as all ones. */
  lemma UnreadableIsAllOnes(p: Platform, s: Option<string>)
    requires RilStrToInt(s, p.ulongMax).None?
    ensures ToUint16(IntOr(s, p)) == 0xffff && ToUint32(IntOr(s, p)) == 0xffff_ffff
  {}

  predicate GsmFamily(t: RadioTech) {
    t.Gprs? || t.Edge? || t.Gsm?
  }

  predicate WcdmaFamily(t: RadioTech) {
    t.Umts? || t.Hsdpa? || t.Hsupa? || t.Hspa? || t.Hspap?
  }

  /** The block of the technology has the numbers. */
  lemma VoiceCellOf(p: Platform, st: RegStatus, techText: Option<string>, lacText: Option<string>,
                    cidText: Option<string>, pscText: Option<string>,
                    tech: RadioTech, lac: nat, cid: nat, psc: nat, r: RegStatus)
    requires RilStrToInt(techText, p.ulongMax).Some? && tech == p.tech(RilStrToInt(techText, p.ulongMax).value)
    requires lac == ToUint16(IntOr(lacText, p)) && cid == ToUint32(IntOr(cidText, p))
    requires psc == ToUint16(IntOr(pscText, p))
    requires r == RilCellToUrilCellVoice(p, st, techText, lacText, cidText, pscText)
    ensures r.gsm == if GsmFamily(tech) then GsmCell(true, st.gsm.mcc, st.gsm.mnc, lac, cid) else st.gsm
    ensures r.wcdma == if WcdmaFamily(tech) then WcdmaCell(true, st.wcdma.mcc, st.wcdma.mnc, lac, cid, psc)
                       else st.wcdma
    ensures r.tdscdma == if tech.TdScdma? then TdscdmaCell(true, st.tdscdma.mcc, st.tdscdma.mnc, lac, cid)
                         else st.tdscdma
    ensures r.lte == st.lte
  {}

  lemma VoiceCellLast(p: Platform, st: RegStatus, strings: Strings, r: RegStatus) returns (mid: RegStatus)
    requires AfterVoice(p, st, strings) == Some(r)
    ensures mid.gsm == st.gsm && mid.wcdma == st.wcdma && mid.tdscdma == st.tdscdma && mid.lte == st.lte
    ensures r == RilCellToUrilCellVoice(p, mid, Item(strings, 3), Item(strings, 1), Item(strings, 2), Item(strings, 14))
  {
    var reg := RegOf(p, strings);
    mid := if reg.Reg? then st.(voiceFollows := true, voice := reg.info) else st.(voiceFollows := false);
  }

  /** The numbers of a voice answer come out of the block of its technology, and no other block changes. */
  lemma PrintedVoiceCell(p: Platform, st: RegStatus, strings: Strings,
                         tech: int, lac: nat, cid: nat, psc: nat, r: RegStatus)
    requires p.Valid() && IsInt32(tech) && lac < UINT16 && cid < UINT32 && psc < UINT16
    requires Item(strings, 3) == Some(PrintInt(tech)) && Item(strings, 1) == Some(PrintNat(lac))
    requires Item(strings, 2) == Some(PrintNat(cid)) && Item(strings, 14) == Some(PrintNat(psc))
    requires AfterVoice(p, st, strings) == Some(r)
    ensures r.gsm == if GsmFamily(p.tech(tech)) then GsmCell(true, st.gsm.mcc, st.gsm.mnc, lac, cid) else st.gsm
    ensures r.wcdma == if WcdmaFamily(p.tech(tech))
                       then WcdmaCell(true, st.wcdma.mcc, st.wcdma.mnc, lac, cid, psc) else st.wcdma
    ensures r.tdscdma == if p.tech(tech).TdScdma?
                         then TdscdmaCell(true, st.tdscdma.mcc, st.tdscdma.mnc, lac, cid) else st.tdscdma
    ensures r.lte == st.lte
  {
    DecimalRoundTrip(tech, p.ulongMax);
    UnsignedReads(p, lac);
    UnsignedReads(p, cid);
    UnsignedReads(p, psc);
    var mid := VoiceCellLast(p, st, strings, r);
    VoiceCellOf(p, mid, Item(strings, 3), Item(strings, 1), Item(strings, 2), Item(strings, 14),
                p.tech(tech), lac, cid, psc, r);
  }

  /** The same for a data answer: area code, physical cell id and cell id, in this order of strings 1, 2 and 14. */
  lemma PrintedDataCell(p: Platform, st: RegStatus, strings: Strings,
                        tech: int, tac: nat, pci: nat, eci: nat, r: RegStatus)
    requires p.Valid() && IsInt32(tech) && tac < UINT16 && pci < UINT16 && eci < UINT32
    requires Item(strings, 3) == Some(PrintInt(tech)) && Item(strings, 1) == Some(PrintNat(tac))
    requires Item(strings, 2) == Some(PrintNat(pci)) && Item(strings, 14) == Some(PrintNat(eci))
    requires AfterData(p, st, strings) == Some(r)
    ensures r.lte == if p.tech(tech).Lte? then LteCell(true, st.lte.mcc, st.lte.mnc, eci, pci, tac) else st.lte
    ensures r.gsm == st.gsm && r.wcdma == st.wcdma && r.tdscdma == st.tdscdma
  {
    DecimalRoundTrip(tech, p.ulongMax);
    UnsignedReads(p, tac);
    UnsignedReads(p, pci);
    UnsignedReads(p, eci);
  }
}
