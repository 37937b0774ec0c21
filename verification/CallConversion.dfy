/** The data call list of a response: the records of the vendor's list, told apart and converted. */
module CallConversion {
  import opened Basics
  import opened Protocol
  import opened Addresses
  import opened DataCall
  import opened CallList
  import opened Registration

  /** The images of all elements, if every element has one. */
  function AllOf<X, Y>(xs: seq<X>, f: X -> Option<Y>): Option<seq<Y>> {
    if xs == [] then Some([])
    else
      var n := |xs| - 1;
      var before := AllOf(xs[..n], f);
      if before.None? then None
      else
        var last := f(xs[n]);
        if last.None? then None else Some(before.value + [last.value])
  }

  lemma {:induction false} AllOfIs<X, Y>(xs: seq<X>, f: X -> Option<Y>)
    ensures AllOf(xs, f).Some? <==> forall i :: 0 <= i < |xs| ==> f(xs[i]).Some?
    ensures AllOf(xs, f).Some? ==>
              && |AllOf(xs, f).value| == |xs|
              && forall i :: 0 <= i < |xs| ==> f(xs[i]) == Some(AllOf(xs, f).value[i])
  {
    if xs != [] {
      var n := |xs| - 1;
      AllOfIs(xs[..n], f);
      assert forall i :: 0 <= i < n ==> xs[..n][i] == xs[i];
    }
  }

  lemma AllOfNext<X, Y>(xs: seq<X>, x: X, f: X -> Option<Y>)
    ensures var before := AllOf(xs, f);
            AllOf(xs + [x], f) == if before.None? || f(x).None? then None else Some(before.value + [f(x).value])
  {
    assert (xs + [x])[..|xs|] == xs;
  }

  function InfoFrom(p: Platform, record: seq<Byte>): Option<CallInfo> {
    InfoOf(p.unpack(record), p.cause, Parser(p.ulongMax))
  }

  type Converter = seq<Byte> -> Option<CallInfo>

  function ConverterOf(p: Platform): Converter {
    (record: seq<Byte>) => InfoFrom(p, record)
  }

  /** The handler on a list of this many bytes; None is a failed assertion. */
  function Listed(p: Platform, data: seq<Byte>): Option<seq<CallInfo>>
    requires p.layout.Valid()
  {
    var records := Decode(data, p.layout);
    if records.None? then None else AllOf(records.value, ConverterOf(p))
  }

  /** The record of a call that was set up, which may be of any version; None is a failed assertion. */
  function SetUp(p: Platform, data: seq<Byte>): Option<CallInfo>
    requires p.layout.Valid()
  {
    if p.layout.Size(V6) <= |data| <= p.layout.Size(V11) then InfoFrom(p, Padded(data, p.layout.Size(V11))) else None
  }

  /** On both platforms a list that a response can hold is converted record by record, in order; it fails
      exactly if one of its own records cannot be converted. */
  lemma HeldListsAreConverted(p: Platform, records: seq<seq<Byte>>, v: Version)
    requires OnPlatform(p.layout)
    requires |records| <= 6
    requires forall i :: 0 <= i < |records| ==> |records[i]| == p.layout.Size(v)
    ensures p.layout.Size(v) <= p.layout.Size(V11)
    ensures HasConverted(Listed(p, Concatenated(records)), records, p.layout.Size(V11), ConverterOf(p))
  {
    HeldListsAreDecoded(records, p.layout, v);
    ConvertedAre(records, p.layout.Size(V11), Decode(Concatenated(records), p.layout).value, ConverterOf(p));
  }

  /** r is the list of the converted records, or none if one of them cannot be converted. */
  ghost predicate HasConverted(r: Option<seq<CallInfo>>, records: seq<seq<Byte>>, full: nat, f: Converter)
    requires forall i :: 0 <= i < |records| ==> |records[i]| <= full
  {
    && (r.Some? <==> forall i :: 0 <= i < |records| ==> f(Padded(records[i], full)).Some?)
    && (r.Some? ==> |r.value| == |records|)
    && (r.Some? ==> forall i :: 0 <= i < |records| ==> f(Padded(records[i], full)) == Some(r.value[i]))
  }

  lemma ConvertedAre(records: seq<seq<Byte>>, full: nat, decoded: seq<seq<Byte>>, f: Converter)
    requires forall i :: 0 <= i < |records| ==> |records[i]| <= full
    requires decoded == seq(|records|, i requires 0 <= i < |records| => Padded(records[i], full))
    ensures HasConverted(AllOf(decoded, f), records, full, f)
  {
    AllOfIs(decoded, f);
    assert forall i :: 0 <= i < |records| ==> decoded[i] == Padded(records[i], full);
  }

  /** A record copied over zeros. */
  method CopyRecord(data: seq<Byte>, size: nat, full: nat, i: nat, ghost records: seq<seq<Byte>>)
    returns (record: seq<Byte>)
    requires 1 <= size <= full && |records| <= |data| / size && i < |records|
    requires records == Copied(data, size, full, |records|)
    ensures record == records[i]
  {
    RecordFits(data, size, i);
    CopiedAt(data, size, full, |records|, i);
    record := Padded(Record(data, size, i), full);
  }

  lemma {:induction false} CopiedAt(data: seq<Byte>, size: nat, full: nat, n: nat, i: nat)
    requires 1 <= size <= full && i < n <= |data| / size && (i + 1) * size <= |data|
    ensures |Record(data, size, i)| <= full && Copied(data, size, full, n)[i] == Padded(Record(data, size, i), full)
  {
    RecordFits(data, size, i);
    if i < n - 1 {
      CopiedAt(data, size, full, n - 1, i);
    }
  }

  lemma AllOfPrefix<X, Y>(xs: seq<X>, i: nat, f: X -> Option<Y>)
    requires i < |xs|
    ensures f(xs[i]).None? ==> AllOf(xs, f).None?
    ensures var before := AllOf(xs[..i], f);
            before.Some? && f(xs[i]).Some? ==> AllOf(xs[..i + 1], f) == Some(before.value + [f(xs[i]).value])
  {
    AllOfIs(xs, f);
    AllOfNext(xs[..i], xs[i], f);
    assert xs[..i + 1] == xs[..i] + [xs[i]];
  }

  /** A record converted into zeroed memory. */
  method ConvertRecord(p: Platform, record: seq<Byte>) returns (call: Option<CallInfo>)
    ensures call == ConverterOf(p)(record)
  {
    ParserIsNeverEmpty(p.ulongMax);
    var info := new DataCallInfo();
    var aborted := info.FromRil(p.unpack(record), p.cause, p.ulongMax, Parser(p.ulongMax));
    call := if aborted then None else Some(info.View());
  }

  /** The loop of the handler: a copy of each record over zeros, and its conversion. records are the copies. */
  method ConvertRecords(p: Platform, data: seq<Byte>, size: nat, full: nat, numCalls: nat,
                        ghost records: seq<seq<Byte>>)
    returns (calls: seq<CallInfo>, aborted: bool)
    requires 1 <= size <= full && |records| == Min(numCalls, URIL_DATA_MAX_CALLS_COUNT) <= |data| / size
    requires records == Copied(data, size, full, |records|)
    ensures AllOf(records, ConverterOf(p)) == if aborted then None else Some(calls)
  {
    calls, aborted := [], false;
    var i := 0;
    while i < numCalls && i < URIL_DATA_MAX_CALLS_COUNT
      invariant 0 <= i <= |records| && !aborted
      invariant AllOf(records[..i], ConverterOf(p)) == Some(calls)
    {
      var record := CopyRecord(data, size, full, i, records);
      var call := ConvertRecord(p, record);
      AllOfPrefix(records, i, ConverterOf(p));
      if call.None? {
        aborted := true;
        return;
      }
      calls := calls + [call.value];
      i := i + 1;
    }
    assert records[..i] == records;
  }

  method GetSetUp(p: Platform, data: seq<Byte>) returns (call: Option<CallInfo>)
    requires p.layout.Valid()
    ensures call == SetUp(p, data)
  {
    call := None;
    if p.layout.Size(V6) <= |data| && |data| <= p.layout.Size(V11) {
      call := ConvertRecord(p, Padded(data, p.layout.Size(V11)));
    }
  }

  /** aborted is a failed assertion, on the version or in a record. */
  method GetDataCallList(p: Platform, data: seq<Byte>) returns (calls: seq<CallInfo>, aborted: bool)
    requires p.layout.Valid()
    ensures Listed(p, data) == if aborted then None else Some(calls)
  {
    calls := [];
    var ver := InferVersion(|data|, p.layout);
    SmallestDivides(|data|, p.layout, ver);
    aborted := ver.None?;
    if !aborted {
      SizesGrow(p.layout, ver.value);
      var size := p.layout.Size(ver.value);
      calls, aborted := ConvertRecords(p, data, size, p.layout.Size(V11), |data| / size,
                                       Decode(data, p.layout).value);
    }
  }
}
