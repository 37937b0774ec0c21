/** Option, fixed-width arithmetic and counting, used by every component. */
module Basics {

  datatype Option<+T> = None | Some(value: T)

  const UINT16: nat := 0x1_0000
  const UINT32: nat := 0x1_0000_0000

  function ToUint8(x: int): (r: nat)
    ensures r < 256
  {
    x % 256
  }

  function ToUint16(x: int): (r: nat)
    ensures r < UINT16
  {
    x % UINT16
  }

  function ToUint32(x: int): (r: nat)
    ensures r < UINT32
  {
    x % UINT32
  }

  /** Two's complement reading of the low 8 bits. */
  function ToInt8(x: int): (r: int)
    ensures -128 <= r < 128
    ensures (x - r) % 256 == 0
  {
    var low := x % 256;
    if low < 128 then low else low - 256
  }

  /** Two's complement reading of the low 32 bits: what a cast to int keeps. */
  function ToInt32(x: int): (r: int)
    ensures -0x8000_0000 <= r < 0x8000_0000
    ensures (x - r) % UINT32 == 0
  {
    var low := x % UINT32;
    if low < 0x8000_0000 then low else low - UINT32
  }

  function Min(x: nat, y: nat): nat {
    if x < y then x else y
  }

  /** The sequence without its i-th element. */
  function Without<T>(xs: seq<T>, i: nat): (ys: seq<T>)
    requires i < |xs|
    ensures |ys| == |xs| - 1
  {
    xs[..i] + xs[i + 1..]
  }

  /** The first index whose element satisfies p. */
  function FirstIndex<T>(xs: seq<T>, p: T -> bool): (r: Option<nat>)
    ensures r.None? ==> forall i :: 0 <= i < |xs| ==> !p(xs[i])
    ensures r.Some? ==> r.value < |xs| && p(xs[r.value])
    ensures r.Some? ==> forall i :: 0 <= i < r.value ==> !p(xs[i])
  {
    if xs == [] then None
    else if p(xs[0]) then Some(0)
    else match FirstIndex(xs[1..], p)
      case None =>
        assert forall i :: 0 < i < |xs| ==> xs[i] == xs[1..][i - 1];
        None
      case Some(k) =>
        assert forall i :: 0 < i < |xs| ==> xs[i] == xs[1..][i - 1];
        Some(k + 1)
  }

  /** A first index is determined by what it is. */
  lemma FirstIndexIs<T>(xs: seq<T>, p: T -> bool, k: nat)
    requires k < |xs| && p(xs[k])
    requires forall i :: 0 <= i < k ==> !p(xs[i])
    ensures FirstIndex(xs, p) == Some(k)
  {
    var r := FirstIndex(xs, p);
    assert r.Some?;
  }
}

/** How often an id occurs among the keys of a sequence. Key -1 stands for "no id". */
module Occurrences {
  import opened Basics

  function Occ<T>(xs: seq<T>, key: T -> int, u: int): nat {
    if xs == [] then 0
    else (if key(xs[0]) == u then 1 else 0) + Occ(xs[1..], key, u)
  }

  lemma {:induction false} OccConcat<T>(xs: seq<T>, ys: seq<T>, key: T -> int, u: int)
    ensures Occ(xs + ys, key, u) == Occ(xs, key, u) + Occ(ys, key, u)
  {
    if xs == [] {
      assert xs + ys == ys;
    } else {
      assert (xs + ys)[1..] == xs[1..] + ys;
      OccConcat(xs[1..], ys, key, u);
    }
  }

  lemma OccAppend<T>(xs: seq<T>, x: T, key: T -> int, u: int)
    ensures Occ(xs + [x], key, u) == Occ(xs, key, u) + if key(x) == u then 1 else 0
  {
    OccConcat(xs, [x], key, u);
  }

  lemma OccSplit<T>(xs: seq<T>, i: nat, key: T -> int, u: int)
    requires i < |xs|
    ensures Occ(xs, key, u) ==
            Occ(xs[..i], key, u) + (if key(xs[i]) == u then 1 else 0) + Occ(xs[i + 1..], key, u)
  {
    assert xs == (xs[..i] + [xs[i]]) + xs[i + 1..];
    OccConcat(xs[..i] + [xs[i]], xs[i + 1..], key, u);
    OccAppend(xs[..i], xs[i], key, u);
  }

  lemma OccUpdate<T>(xs: seq<T>, i: nat, x: T, key: T -> int, u: int)
    requires i < |xs|
    ensures Occ(xs[i := x], key, u) + (if key(xs[i]) == u then 1 else 0)
         == Occ(xs, key, u) + if key(x) == u then 1 else 0
  {
    OccSplit(xs, i, key, u);
    var ys := xs[i := x];
    OccSplit(ys, i, key, u);
    assert ys[..i] == xs[..i] && ys[i + 1..] == xs[i + 1..];
  }

  lemma OccWithout<T>(xs: seq<T>, i: nat, key: T -> int, u: int)
    requires i < |xs|
    ensures Occ(Without(xs, i), key, u) + (if key(xs[i]) == u then 1 else 0) == Occ(xs, key, u)
  {
    OccSplit(xs, i, key, u);
    OccConcat(xs[..i], xs[i + 1..], key, u);
  }

  lemma OccAt<T>(xs: seq<T>, i: nat, key: T -> int)
    requires i < |xs|
    ensures Occ(xs, key, key(xs[i])) >= 1
  {
    OccSplit(xs, i, key, key(xs[i]));
  }

  lemma {:induction false} OccFind<T>(xs: seq<T>, key: T -> int, u: int) returns (i: nat)
    requires Occ(xs, key, u) >= 1
    ensures i < |xs| && key(xs[i]) == u
  {
    if key(xs[0]) == u {
      i := 0;
    } else {
      var j := OccFind(xs[1..], key, u);
      i := j + 1;
    }
  }

  lemma OccTwice<T>(xs: seq<T>, i: nat, j: nat, key: T -> int)
    requires i < j < |xs| && key(xs[i]) == key(xs[j])
    ensures Occ(xs, key, key(xs[i])) >= 2
  {
    OccSplit(xs, i, key, key(xs[i]));
    assert xs[i + 1..][j - i - 1] == xs[j];
    OccAt(xs[i + 1..], j - i - 1, key);
  }

  /** An id that occurs once is the key of one element only. */
  lemma OccUnique<T>(xs: seq<T>, i: nat, j: nat, key: T -> int)
    requires i < |xs| && j < |xs| && key(xs[i]) == key(xs[j])
    requires Occ(xs, key, key(xs[i])) <= 1
    ensures i == j
  {
    if i < j {
      OccTwice(xs, i, j, key);
    } else if j < i {
      OccTwice(xs, j, i, key);
    }
  }

  lemma {:induction false} OccNone<T>(xs: seq<T>, key: T -> int, u: int)
    requires forall i :: 0 <= i < |xs| ==> key(xs[i]) != u
    ensures Occ(xs, key, u) == 0
  {
    if Occ(xs, key, u) >= 1 {
      var i := OccFind(xs, key, u);
    }
  }
}
