/** First-match dispatch over a list of message processors. */
module Composite {
  import opened Basics

  datatype AdapterOp =
    | SetNetworkPreference | GetNetworkPreference | GetNetworkRegistrationStatus | ScanNetwork
    | SetScreenState | SelectNetwork | GetSignalStrength | GetCellAccess
    | SetRadioMode | GetRadioMode
    | SetDataProfiles | SetupDataCall | DeactivateDataCall | GetDataCallList | SetInitialAttachParams

  /** A processor's switch: the message ids it claims, each with the adapter operation it calls. */
  type Processor = map<nat, AdapterOp>

  const NETWORK_V1: Processor := map[
    0x0500 := SetNetworkPreference,
    0x0501 := GetNetworkPreference,
    0x0502 := GetNetworkRegistrationStatus,
    0x0503 := ScanNetwork,
    0x0504 := SetScreenState,
    0x0505 := SelectNetwork,
    0x0506 := GetSignalStrength,
    0x0507 := GetCellAccess]

  const RADIO_V1: Processor := map[
    0x0101 := GetRadioMode,
    0x0102 := SetRadioMode]

  const DATA_V1: Processor := map[
    0x0600 := SetDataProfiles,
    0x0601 := SetupDataCall,
    0x0602 := DeactivateDataCall,
    0x0603 := GetDataCallList,
    0x0604 := SetInitialAttachParams]

  // The order in which the factory adds them.
  const V1_PROCESSORS: seq<Processor> := [NETWORK_V1, RADIO_V1, DATA_V1]

  /** The composite's result and the adapter operations it ran, in order. */
  function Dispatch(children: seq<Processor>, msgId: nat, outcome: AdapterOp -> bool): (bool, seq<AdapterOp>) {
    if children == [] then (false, [])
    else if msgId !in children[0] then Dispatch(children[1..], msgId, outcome)
    else
      var op := children[0][msgId];
      if outcome(op) then (true, [op])
      else
        var rest := Dispatch(children[1..], msgId, outcome);
        (rest.0, [op] + rest.1)
  }

  ghost predicate PairwiseDisjoint(children: seq<Processor>) {
    forall i, j, msgId: nat :: 0 <= i < j < |children| && msgId in children[i] ==> msgId !in children[j]
  }

  function Claims(children: seq<Processor>, msgId: nat): nat {
    if children == [] then 0
    else (if msgId in children[0] then 1 else 0) + Claims(children[1..], msgId)
  }

  lemma {:induction false} ClaimsWithout(children: seq<Processor>, i: nat, msgId: nat)
    requires i < |children|
    ensures Claims(children, msgId) ==
            Claims(Without(children, i), msgId) + if msgId in children[i] then 1 else 0
  {
    if i == 0 {
      assert Without(children, 0) == children[1..];
    } else {
      assert Without(children, i)[1..] == Without(children[1..], i - 1);
      ClaimsWithout(children[1..], i - 1, msgId);
    }
  }

  lemma PermuteSplit(xs: seq<Processor>, ys: seq<Processor>) returns (i: nat)
    requires multiset(xs) == multiset(ys) && xs != []
    ensures i < |ys| && ys[i] == xs[0] && multiset(xs[1..]) == multiset(Without(ys, i))
  {
    assert xs[0] in multiset(ys);
    i :| 0 <= i < |ys| && ys[i] == xs[0];
    assert xs == [xs[0]] + xs[1..];
    assert ys == ys[..i] + [ys[i]] + ys[i + 1..];
    calc {
      multiset(xs[1..]);
      multiset(xs) - multiset{xs[0]};
      multiset(ys) - multiset{ys[i]};
      multiset(ys[..i]) + multiset(ys[i + 1..]);
    }
  }

  lemma {:induction false} ClaimsPermute(xs: seq<Processor>, ys: seq<Processor>, msgId: nat)
    requires multiset(xs) == multiset(ys)
    ensures Claims(xs, msgId) == Claims(ys, msgId)
  {
    if xs == [] {
      assert |ys| == |multiset(ys)|;
    } else {
      var i := PermuteSplit(xs, ys);
      ClaimsPermute(xs[1..], Without(ys, i), msgId);
      ClaimsWithout(ys, i, msgId);
    }
  }

  lemma {:induction false} UnclaimedHasNoEffect(children: seq<Processor>, msgId: nat, outcome: AdapterOp -> bool)
    requires Claims(children, msgId) == 0
    ensures Dispatch(children, msgId, outcome) == (false, [])
  {
    if children != [] {
      UnclaimedHasNoEffect(children[1..], msgId, outcome);
    }
  }

  lemma {:induction false} SoleClaimDecides(children: seq<Processor>, i: nat, msgId: nat, outcome: AdapterOp -> bool)
    requires i < |children| && msgId in children[i] && Claims(children, msgId) == 1
    ensures Dispatch(children, msgId, outcome) == (outcome(children[i][msgId]), [children[i][msgId]])
  {
    if i == 0 {
      UnclaimedHasNoEffect(children[1..], msgId, outcome);
      var op := children[0][msgId];
      assert [op] + [] == [op];
    } else {
      ClaimsWithout(children[1..], i - 1, msgId);
      SoleClaimDecides(children[1..], i - 1, msgId, outcome);
    }
  }

  lemma {:induction false} ClaimedBySome(children: seq<Processor>, msgId: nat) returns (i: nat)
    requires Claims(children, msgId) >= 1
    ensures i < |children| && msgId in children[i]
  {
    if msgId in children[0] {
      i := 0;
    } else {
      var j := ClaimedBySome(children[1..], msgId);
      i := j + 1;
    }
  }

  lemma TwiceClaimed(children: seq<Processor>, i: nat, j: nat, msgId: nat)
    requires i < j < |children| && msgId in children[i] && msgId in children[j]
    ensures Claims(children, msgId) >= 2
  {
    ClaimsWithout(children, i, msgId);
    assert Without(children, i)[j - 1] == children[j];
    ClaimsWithout(Without(children, i), j - 1, msgId);
  }

  lemma {:induction false} DisjointClaims(children: seq<Processor>, msgId: nat)
    requires PairwiseDisjoint(children)
    ensures Claims(children, msgId) <= 1
  {
    if children != [] {
      DisjointClaims(children[1..], msgId);
      if msgId in children[0] && Claims(children[1..], msgId) == 1 {
        var k := ClaimedBySome(children[1..], msgId);
      }
    }
  }

  lemma OneClaimMeansDisjoint(children: seq<Processor>)
    requires forall msgId: nat :: Claims(children, msgId) <= 1
    ensures PairwiseDisjoint(children)
  {
    forall i, j, m: nat | 0 <= i < j < |children| && m in children[i] ensures m !in children[j] {
      if m in children[j] {
        TwiceClaimed(children, i, j, m);
      }
    }
  }

  /** For children with disjoint ids the order of the list makes no difference. */
  lemma DispatchIsOrderIndependent(xs: seq<Processor>, ys: seq<Processor>, msgId: nat, outcome: AdapterOp -> bool)
    requires PairwiseDisjoint(xs) && multiset(xs) == multiset(ys)
    ensures Dispatch(xs, msgId, outcome) == Dispatch(ys, msgId, outcome)
  {
    DisjointClaims(xs, msgId);
    ClaimsPermute(xs, ys, msgId);
    if Claims(xs, msgId) == 0 {
      UnclaimedHasNoEffect(xs, msgId, outcome);
      UnclaimedHasNoEffect(ys, msgId, outcome);
    } else {
      var i := ClaimedBySome(xs, msgId);
      assert xs[i] in multiset(ys);
      var j :| 0 <= j < |ys| && ys[j] == xs[i];
      SoleClaimDecides(xs, i, msgId, outcome);
      SoleClaimDecides(ys, j, msgId, outcome);
    }
  }

  lemma {:induction false} RefusalsTryEveryClaim(children: seq<Processor>, msgId: nat)
    ensures |Dispatch(children, msgId, (_: AdapterOp) => false).1| == Claims(children, msgId)
  {
    if children != [] {
      RefusalsTryEveryClaim(children[1..], msgId);
    }
  }

  lemma {:induction false} EffectsWithinClaims(children: seq<Processor>, msgId: nat, outcome: AdapterOp -> bool)
    ensures |Dispatch(children, msgId, outcome).1| <= Claims(children, msgId)
  {
    if children != [] {
      EffectsWithinClaims(children[1..], msgId, outcome);
    }
  }

  ghost predicate RunsAtMostOne(children: seq<Processor>) {
    forall msgId: nat, outcome: AdapterOp -> bool :: |Dispatch(children, msgId, outcome).1| <= 1
  }

  /** At most one adapter operation per request, whatever it returns: exactly for disjoint claims. */
  lemma OneOperationIffDisjoint(children: seq<Processor>)
    ensures PairwiseDisjoint(children) <==> RunsAtMostOne(children)
  {
    if PairwiseDisjoint(children) {
      forall msgId: nat, outcome: AdapterOp -> bool ensures |Dispatch(children, msgId, outcome).1| <= 1 {
        EffectsWithinClaims(children, msgId, outcome);
        DisjointClaims(children, msgId);
      }
    }
    if RunsAtMostOne(children) {
      forall msgId: nat ensures Claims(children, msgId) <= 1 {
        RefusalsTryEveryClaim(children, msgId);
      }
      OneClaimMeansDisjoint(children);
    }
  }

  /** The three version 1 processors are such a list. */
  lemma V1ProcessorsAreDisjoint()
    ensures PairwiseDisjoint(V1_PROCESSORS)
  {
    assert forall m: nat :: m in NETWORK_V1 ==> 0x0500 <= m < 0x0600;
    assert forall m: nat :: m in RADIO_V1 ==> 0x0100 <= m < 0x0500;
    assert forall m: nat :: m in DATA_V1 ==> 0x0600 <= m;
  }

  class CompositeRequestProcessor {
    var mChildren: seq<Processor>
    // The adapter operations run on behalf of requests so far.
    var ran: seq<AdapterOp>

    constructor ()
      ensures mChildren == [] && ran == []
    {
      mChildren, ran := [], [];
    }

    method AddChildRequestProcessor(processor: Processor)
      modifies this`mChildren
      ensures mChildren == old(mChildren) + [processor]
    {
      mChildren := mChildren + [processor];
    }

    /** outcome(op) is what the adapter returns from the operation. */
    method ProcessRequest(msgId: nat, outcome: AdapterOp -> bool) returns (ret: bool)
      modifies this`ran
      ensures ret == Dispatch(mChildren, msgId, outcome).0
      ensures ran == old(ran) + Dispatch(mChildren, msgId, outcome).1
    {
      ret := false;
      var k := 0;
      while k < |mChildren| && !ret
        invariant 0 <= k <= |mChildren|
        invariant !ret ==>
                    && Dispatch(mChildren, msgId, outcome).0 == Dispatch(mChildren[k..], msgId, outcome).0
                    && old(ran) + Dispatch(mChildren, msgId, outcome).1
                       == ran + Dispatch(mChildren[k..], msgId, outcome).1
        invariant ret ==>
                    && Dispatch(mChildren, msgId, outcome).0
                    && ran == old(ran) + Dispatch(mChildren, msgId, outcome).1
      {
        var child := mChildren[k];
        assert mChildren[k..][1..] == mChildren[k + 1..];
        if msgId in child {
          ran := ran + [child[msgId]];
          ret := outcome(child[msgId]);
        }
        k := k + 1;
      }
      assert !ret ==> mChildren[k..] == [];
    }
  }
}
