/** The list of available networks, and the operator numbers in it. */
module Scan {
  import opened Basics
  import opened Protocol

  const URIL_NW_SCAN_MAX_ENTRY_COUNT: nat := 32
  const EONS_LEN: nat := 512
  const MCC_LEN: nat := 3
  const MNC_LEN: nat := 3

  // Vendor strings come as pointers, of which some may be null.
  type Strings = seq<Option<string>>

  /** strncpy into a mobile country code. */
  function Mcc(numeric: string): string {
    numeric[..Min(|numeric|, MCC_LEN)]
  }

  /** strncpy into a mobile network code, from the fourth character on. */
  function Mnc(numeric: string): string {
    if |numeric| < MCC_LEN then "" else numeric[MCC_LEN..Min(|numeric|, MCC_LEN + MNC_LEN)]
  }

  /** What a manual selection sends to the vendor. */
  function SelectionText(mcc: string, mnc: string): string {
    (mcc + mnc)[..Min(|mcc + mnc|, MCC_LEN + MNC_LEN)]
  }

  /** A scanned number can be given back for manual selection exactly when it has at most six digits. */
  lemma ScannedNumberSelects(numeric: string)
    requires |numeric| >= MCC_LEN
    ensures SelectionText(Mcc(numeric), Mnc(numeric)) == numeric <==> |numeric| <= MCC_LEN + MNC_LEN
    ensures Mcc(numeric) + Mnc(numeric) == numeric <==> |numeric| <= MCC_LEN + MNC_LEN
  {
    var both := Mcc(numeric) + Mnc(numeric);
    assert both == numeric[..Min(|numeric|, MCC_LEN + MNC_LEN)];
  }

  function StatusOf(word: string): Option<NetworkStatus> {
    if word == "unknown" then Some(NoStatus)
    else if word == "available" then Some(Available)
    else if word == "current" then Some(CurrentServing)
    else if word == "forbidden" then Some(Forbidden)
    else None
  }

  function OperatorOf(longName: string, shortName: string, numeric: string): OperatorName {
    OperatorName(longName[..Min(|longName|, EONS_LEN)], shortName[..Min(|shortName|, EONS_LEN)],
                 Mcc(numeric), Mnc(numeric))
  }

  /** The entry the i-th quadruple stands for, if it is usable at all. */
  function EntryOf(data: Strings, i: nat): Option<ScanEntry>
    requires 4 * i + 3 < |data|
  {
    if data[4 * i].None? || data[4 * i + 1].None? || data[4 * i + 2].None? || data[4 * i + 3].None? then None
    else
      match StatusOf(data[4 * i + 3].value)
      case None => None
      case Some(status) =>
        Some(ScanEntry(OperatorOf(data[4 * i].value, data[4 * i + 1].value, data[4 * i + 2].value), status))
  }

  /** The usable entries among the first n quadruples. */
  function Usable(data: Strings, n: nat): (r: seq<ScanEntry>)
    requires 4 * n <= |data|
    ensures |r| <= n
  {
    if n == 0 then []
    else Usable(data, n - 1) + match EntryOf(data, n - 1) case None => [] case Some(e) => [e]
  }

  lemma {:induction false} UsableGrows(data: Strings, m: nat, n: nat)
    requires m <= n && 4 * n <= |data|
    ensures |Usable(data, m)| <= |Usable(data, n)| && Usable(data, m) == Usable(data, n)[..|Usable(data, m)|]
  {
    if m < n {
      UsableGrows(data, m, n - 1);
    }
  }

  /** Every usable quadruple is listed, at the place its usable predecessors leave for it. */
  lemma UsableKeepsOrder(data: Strings, i: nat, n: nat)
    requires i < n && 4 * n <= |data| && EntryOf(data, i).Some?
    ensures |Usable(data, i)| < |Usable(data, n)|
    ensures Usable(data, n)[|Usable(data, i)|] == EntryOf(data, i).value
  {
    UsableGrows(data, i + 1, n);
  }

  /** Nothing else is listed. */
  lemma {:induction false} UsableComesFrom(data: Strings, n: nat, k: nat) returns (i: nat)
    requires 4 * n <= |data| && k < |Usable(data, n)|
    ensures i < n && EntryOf(data, i) == Some(Usable(data, n)[k]) && |Usable(data, i)| == k
  {
    if k < |Usable(data, n - 1)| {
      i := UsableComesFrom(data, n - 1, k);
    } else {
      i := n - 1;
    }
  }

  /** What the response holds: the first 32 usable entries. */
  function ScanEntries(data: Strings): (r: seq<ScanEntry>)
    ensures |r| <= URIL_NW_SCAN_MAX_ENTRY_COUNT
  {
    var all := Usable(data, |data| / 4);
    all[..Min(|all|, URIL_NW_SCAN_MAX_ENTRY_COUNT)]
  }

  /** What a listed quadruple must hold. */
  predicate Readable(data: Strings, i: nat) {
    && 4 * i + 3 < |data|
    && data[4 * i].Some? && data[4 * i + 1].Some? && data[4 * i + 2].Some? && data[4 * i + 3].Some?
    && data[4 * i + 3].value in {"unknown", "available", "current", "forbidden"}
  }

  lemma EntryIffReadable(data: Strings, i: nat)
    requires 4 * i + 3 < |data|
    ensures EntryOf(data, i).Some? <==> Readable(data, i)
  {}

  /** The entry says what the four strings of the quadruple say. */
  predicate Says(e: ScanEntry, longName: string, shortName: string, number: string, word: string) {
    && e.operator.longEons == longName[..Min(|longName|, 512)]
    && e.operator.shortEons == shortName[..Min(|shortName|, 512)]
    && (5 <= |number| <= 6 ==>
          && |e.operator.mcc| == 3 && e.operator.mcc + e.operator.mnc == number
          && SelectionText(e.operator.mcc, e.operator.mnc) == number)
    && (word == "unknown" ==> e.status == NoStatus)
    && (word == "available" ==> e.status == Available)
    && (word == "current" ==> e.status == CurrentServing)
    && (word == "forbidden" ==> e.status == Forbidden)
  }

  lemma OperatorSays(longName: string, shortName: string, number: string, e: OperatorName)
    requires e == OperatorOf(longName, shortName, number)
    ensures e.longEons == longName[..Min(|longName|, 512)] && e.shortEons == shortName[..Min(|shortName|, 512)]
    ensures 5 <= |number| <= 6 ==>
              |e.mcc| == 3 && e.mcc + e.mnc == number && SelectionText(e.mcc, e.mnc) == number
  {
    if 5 <= |number| <= 6 {
      ScannedNumberSelects(number);
    }
  }

  /** Each listed network is a quadruple of the vendor's, and says what that says. */
  lemma ListedNetworkSays(data: Strings, k: nat) returns (i: nat)
    requires k < |ScanEntries(data)|
    ensures Readable(data, i)
    ensures Says(ScanEntries(data)[k], data[4 * i].value, data[4 * i + 1].value, data[4 * i + 2].value,
                 data[4 * i + 3].value)
  {
    i := UsableComesFrom(data, |data| / 4, k);
    EntryIffReadable(data, i);
    OperatorSays(data[4 * i].value, data[4 * i + 1].value, data[4 * i + 2].value, EntryOf(data, i).value.operator);
  }

  /** How many of the first n quadruples are readable. */
  function ReadableCount(data: Strings, n: nat): nat {
    if n == 0 then 0 else ReadableCount(data, n - 1) + if Readable(data, n - 1) then 1 else 0
  }

  lemma {:induction false} UsableCount(data: Strings, n: nat)
    requires 4 * n <= |data|
    ensures |Usable(data, n)| == ReadableCount(data, n)
  {
    if n > 0 {
      UsableCount(data, n - 1);
      EntryIffReadable(data, n - 1);
    }
  }

  /** The readable quadruples are listed, each behind those before it, up to 32 of them. */
  lemma ReadableNetworksAreListed(data: Strings, i: nat)
    requires Readable(data, i)
    ensures |ScanEntries(data)| == Min(ReadableCount(data, |data| / 4), 32)
    ensures ReadableCount(data, i) < 32 ==>
              && ReadableCount(data, i) < |ScanEntries(data)|
              && Says(ScanEntries(data)[ReadableCount(data, i)], data[4 * i].value, data[4 * i + 1].value,
                      data[4 * i + 2].value, data[4 * i + 3].value)
  {
    UsableCount(data, |data| / 4);
    UsableCount(data, i);
    EntryIffReadable(data, i);
    UsableKeepsOrder(data, i, |data| / 4);
    OperatorSays(data[4 * i].value, data[4 * i + 1].value, data[4 * i + 2].value, EntryOf(data, i).value.operator);
  }

  method RilOperatorNameToUrilOperatorName(entries: array<ScanEntry>, at: nat, longName: Option<string>,
                                           shortName: Option<string>, numeric: Option<string>)
    returns (ok: bool)
    requires at < entries.Length
    modifies entries
    ensures ok <==> longName.Some? && shortName.Some? && numeric.Some?
    ensures entries[..] ==
            if !ok then old(entries[..])
            else
              var operator := OperatorOf(longName.value, shortName.value, numeric.value);
              old(entries[..])[at := old(entries[at]).(operator := operator)]
  {
    ok := false;
    if longName.Some? && shortName.Some? && numeric.Some? {
      entries[at] := entries[at].(operator := OperatorOf(longName.value, shortName.value, numeric.value));
      ok := true;
    }
  }

  method FillStatus(entries: array<ScanEntry>, at: nat, word: Option<string>) returns (ok: bool)
    requires at < entries.Length
    modifies entries
    ensures ok <==> word.Some? && StatusOf(word.value).Some?
    ensures entries[..] ==
            if ok then old(entries[..])[at := old(entries[at]).(status := StatusOf(word.value).value)]
            else old(entries[..])
  {
    ok := false;
    if word.Some? {
      var status := StatusOf(word.value);
      if status.Some? {
        entries[at] := entries[at].(status := status.value);
        ok := true;
      }
    }
  }

  /** The loop of the scan handler. An entry that turns out unusable is written over by the next. */
  method FillEntries(data: Strings, entries: array<ScanEntry>) returns (numFilled: nat)
    requires entries.Length == URIL_NW_SCAN_MAX_ENTRY_COUNT
    modifies entries
    ensures numFilled == |ScanEntries(data)| && entries[..numFilled] == ScanEntries(data)
  {
    var numEntries := |data| / 4;
    numFilled := 0;
    var i := 0;
    while i < numEntries && numFilled < URIL_NW_SCAN_MAX_ENTRY_COUNT
      invariant 0 <= i <= numEntries && numFilled <= URIL_NW_SCAN_MAX_ENTRY_COUNT
      invariant numFilled == |Usable(data, i)| && entries[..numFilled] == Usable(data, i)
    {
      ghost var filled, entry := entries[..numFilled], EntryOf(data, i);
      assert Usable(data, i + 1) == filled + if entry.Some? then [entry.value] else [];
      var ok := RilOperatorNameToUrilOperatorName(entries, numFilled, data[4 * i], data[4 * i + 1], data[4 * i + 2]);
      if ok {
        ok := FillStatus(entries, numFilled, data[4 * i + 3]);
      }
      assert entries[..numFilled] == filled;
      if ok {
        numFilled := numFilled + 1;
        assert entries[..numFilled] == filled + [entries[numFilled - 1]];
      }
      i := i + 1;
    }
    UsableGrows(data, i, numEntries);
  }
}
