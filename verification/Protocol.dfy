/** What travels between client, service and adapter. Payloads are typed records. */
module Protocol {
  import opened Basics
  import DataCall
  import Signal

  // Callbacks and client data are opaque addresses that are only stored and compared.
  type Callback = nat
  type ClientData = nat
  type Byte = b: int | 0 <= b < 256

  datatype ResultCode = ResultCode(success: bool, error: nat)

  datatype RegInfo = RegInfo(rat: nat, roaming: bool, denied: bool, service: nat)
  datatype GsmCell = GsmCell(follows: bool, mcc: string, mnc: string, lac: nat, cid: nat)
  datatype WcdmaCell = WcdmaCell(follows: bool, mcc: string, mnc: string, lac: nat, cid: nat, psc: nat)
  datatype LteCell = LteCell(follows: bool, mcc: string, mnc: string, ci: nat, pci: nat, tac: nat)
  datatype TdscdmaCell = TdscdmaCell(follows: bool, mcc: string, mnc: string, lac: nat, cid: nat)

  datatype RegStatus = RegStatus(
    gsm: GsmCell, lte: LteCell, wcdma: WcdmaCell, tdscdma: TdscdmaCell,
    voiceFollows: bool, voice: RegInfo,
    dataFollows: bool, data: RegInfo)

  datatype NetworkStatus = NoStatus | CurrentServing | Available | Forbidden
  datatype OperatorName = OperatorName(longEons: string, shortEons: string, mcc: string, mnc: string)
  datatype ScanEntry = ScanEntry(operator: OperatorName, status: NetworkStatus)

  datatype Detail =
    | NoDetail
    | Registration(reg: RegStatus)
    | Networks(entries: seq<ScanEntry>)
    | DataCalls(calls: seq<DataCall.CallInfo>)
    | OneDataCall(call: DataCall.CallInfo)
    | Preference(mode: nat)
    | SignalReport(block: Signal.SignalBlock)
    | RadioMode(mode: nat)

  /** The values that the operations look at, each of them only at those of its own request. Enumerations
      are plain ints: nothing checks them on the way. */
  datatype Fields = Fields(preferredMode: int, selectionType: int, mcc: string, mnc: string, radioMode: int,
                           bearer: int, authType: int, pdpType: int)

  const ZERO_FIELDS := Fields(0, 0, "", "", 0, 0, 0, 0)

  /** Plain is a payload of zeros. */
  datatype Body =
    | Plain
    | Asking(fields: Fields)
    | Reply(response: ResultCode, detail: Detail)

  function FieldsOf(body: Body): Fields {
    if body.Asking? then body.fields else ZERO_FIELDS
  }

  datatype Msg = Msg(isIndication: bool, uniqueId: nat, simId: nat, msgId: nat, body: Body)

  const ZERO_INFO := RegInfo(0, false, false, 0)
  // memset(..., 0, ...) of the registration response.
  const ZERO_STATUS := RegStatus(
    GsmCell(false, "", "", 0, 0), LteCell(false, "", "", 0, 0, 0),
    WcdmaCell(false, "", "", 0, 0, 0), TdscdmaCell(false, "", "", 0, 0),
    false, ZERO_INFO, false, ZERO_INFO)
}
