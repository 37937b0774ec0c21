/** The signal strength a vendor reports, and the block of the response it ends up in. */
module Signal {
  import opened Basics

  /** How much of the vendor's record there is: less than version 5 has, or what a version has. */
  datatype Extent = TooShort | UpToV5 | UpToV6 | UpToV10

  datatype VendorSignal = VendorSignal(extent: Extent, gwStrength: int, gwErrorRate: int,
                                       lteStrength: int, lteRsrp: int, lteRsrq: int, lteRssnr: int, rscp: int)

  const NO_SIGNAL := VendorSignal(TooShort, 0, 0, 0, 0, 0, 0, 0)

  datatype SignalBlock = NoBlock | GsmBlock(rssi: int) | LteBlock(rssi: int, rsrq: int, rsrp: int, snr: int)
                       | TdscdmaBlock(rscp: int)

  const UNKNOWN: int := 99
  const INT_MAX: int := 0x7fff_ffff

  predicate GwReported(v: VendorSignal) {
    v.gwStrength != UNKNOWN || v.gwErrorRate != UNKNOWN
  }

  predicate LteReported(v: VendorSignal) {
    && (v.extent.UpToV6? || v.extent.UpToV10?)
    && (v.lteStrength != UNKNOWN || v.lteRsrp != INT_MAX || v.lteRsrq != INT_MAX || v.lteRssnr != INT_MAX)
  }

  /** None is the failed assertion on the size of the record. */
  function SignalOf(v: VendorSignal): Option<SignalBlock> {
    if v.extent.TooShort? then None
    else if GwReported(v) then Some(GsmBlock(ToInt8(v.gwStrength)))
    else if LteReported(v) then
      Some(LteBlock(ToInt8(v.lteStrength), ToInt8(v.lteRsrq), ToInt8(v.lteRsrp), ToInt8(v.lteRssnr)))
    else if v.extent.UpToV10? && v.rscp != INT_MAX then Some(TdscdmaBlock(ToInt8(v.rscp)))
    else Some(NoBlock)
  }
}
