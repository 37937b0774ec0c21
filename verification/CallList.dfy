/** Telling the version of a list of vendor data call records from the length of the list.
    The records of versions 6, 9 and 11 are k, k+1 and k+2 units of w bytes long, k odd
    (7 units of 8 bytes on a 64-bit platform, 9 units of 4 bytes on a 32-bit one). */
module CallList {
  import opened Basics
  import opened Protocol

  const URIL_DATA_MAX_CALLS_COUNT: nat := 6

  datatype Version = V6 | V9 | V11

  datatype Layout = Layout(k: nat, w: nat) {
    ghost predicate Valid() {
      k >= 3 && k % 2 == 1 && w >= 1
    }

    function Units(v: Version): nat {
      match v case V6 => k case V9 => k + 1 case V11 => k + 2
    }

    function Size(v: Version): nat {
      Units(v) * w
    }
  }

  /** Records of 56, 64 and 72 bytes on a 64-bit platform, of 36, 40 and 44 bytes on a 32-bit one. */
  predicate OnPlatform(l: Layout) {
    || (l.Size(V6) == 56 && l.Size(V9) == 64 && l.Size(V11) == 72 && l.w == 8)
    || (l.Size(V6) == 36 && l.Size(V9) == 40 && l.Size(V11) == 44 && l.w == 4)
  }

  /** The first version whose record size divides the length; None is the failed assertion. */
  function Infer(len: nat, l: Layout): Option<Version>
    requires l.k >= 1 && l.w >= 1
  {
    if len % l.Size(V6) == 0 then Some(V6)
    else if len % l.Size(V9) == 0 then Some(V9)
    else if len % l.Size(V11) == 0 then Some(V11)
    else None
  }

  // Divisibility.

  lemma Grows(d: int, m: nat)
    ensures d >= 1 ==> d * m >= m
    ensures d <= -1 ==> d * m + m <= 0
  {}

  lemma ModOfSum(q: int, m: nat, r: int)
    requires m >= 1
    ensures (q * m + r) % m == r % m
  {
    var a, b := (q * m + r) / m, r / m;
    assert q * m + r == a * m + (q * m + r) % m;
    assert r == b * m + r % m;
    var d := a - q - b;
    assert d * m == r % m - (q * m + r) % m;
    Grows(d, m);
  }

  lemma SmallMod(r: nat, m: nat)
    requires r < m
    ensures r % m == r
  {
    var q := r / m;
    assert r == q * m + r % m;
    Grows(q, m);
  }

  lemma ScaledBound(r: nat, m: nat, w: nat)
    requires r < m && w >= 1
    ensures r * w < m * w
  {
    assert m * w - r * w == (m - r) * w;
    assert (m - r) * w >= (m - r);
  }

  lemma ScaledMod(a: nat, m: nat, w: nat)
    requires m >= 1 && w >= 1
    ensures m * w >= 1 && ((a * w) % (m * w) == 0 <==> a % m == 0)
  {
    var q, r := a / m, a % m;
    ScaledBound(r, m, w);
    var rw, mw := r * w, m * w;
    assert a * w == q * mw + rw by {
      assert a == q * m + r;
      assert (q * m) * w == q * (m * w);
    }
    ModOfSum(q, mw, rw);
    SmallMod(rw, mw);
    if r >= 1 {
      ScaledBound(0, r, w);
    }
  }

  lemma DoubleModOdd(n: nat, k: nat)
    requires k >= 1 && k % 2 == 1
    ensures (2 * n) % k == 0 <==> n % k == 0
  {
    if n % k == 0 {
      var q := n / k;
      assert 2 * n == (2 * q) * k;
      ModOfSum(2 * q, k, 0);
    }
    if (2 * n) % k == 0 {
      var q := (2 * n) / k;
      assert 2 * n == q * k;
      var h := k / 2;
      assert k == 2 * h + 1;
      assert q * k == 2 * (q * h) + q;
      var e := n - q * h;
      assert q == 2 * e;
      assert n == e * k;
      ModOfSum(e, k, 0);
    }
  }

  lemma ShiftMod(n: nat, m: nat, d: nat)
    requires m >= 1
    ensures (n * (m + d)) % m == (n * d) % m
  {
    assert n * (m + d) == n * m + n * d;
    ModOfSum(n, m, n * d);
  }

  lemma DividesUnits(n: nat, m: nat, w: nat, d: nat, a: nat)
    requires m >= 1 && w >= 1 && d <= 2 && (d == 2 ==> m % 2 == 1) && a == n * (m + d)
    ensures m * w >= 1 && ((a * w) % (m * w) == 0 <==> d == 0 || n % m == 0)
  {
    ScaledMod(a, m, w);
    ShiftMod(n, m, d);
    if d == 2 {
      DoubleModOdd(n, m);
    }
  }

  /** The record size of version v divides the length of n records of version u ... */
  lemma Divides(n: nat, l: Layout, u: Version, v: Version)
    requires l.Valid() && (v == V6 || (v == V9 && u == V11) || v == u)
    ensures l.Size(v) >= 1
    ensures (n * l.Size(u)) % l.Size(v) == 0 <==> v == u || n % l.Units(v) == 0
  {
    var a := n * l.Units(u);
    assert n * l.Size(u) == a * l.w by {
      Regroup(n, l.Units(u), l.w);
    }
    DividesUnits(n, l.Units(v), l.w, l.Units(u) - l.Units(v), a);
  }

  lemma Regroup(n: nat, m: nat, w: nat)
    ensures n * (m * w) == (n * m) * w
  {}

  ghost predicate Telling(n: nat, l: Layout, v: Version)
    requires l.Valid()
  {
    (v != V6 ==> n % l.k != 0) && (v == V11 ==> n % (l.k + 1) != 0)
  }

  /** The version of a list is recognised exactly when no smaller record size divides its length. */
  lemma VersionIsRecognised(n: nat, l: Layout, v: Version)
    requires l.Valid()
    ensures Infer(n * l.Size(v), l).Some?
    ensures Infer(n * l.Size(v), l) == Some(v) <==> Telling(n, l, v)
  {
    Divides(n, l, v, V6);
    Divides(n, l, v, v);
    if v != V6 {
      Divides(n, l, if v == V9 then V11 else v, V9);
    }
  }

  /** Lists shorter than k records are always recognised. */
  lemma ShortListsAreRecognised(n: nat, l: Layout, v: Version)
    requires l.Valid() && 1 <= n < l.k
    ensures Infer(n * l.Size(v), l) == Some(v) && n * l.Size(v) / l.Size(v) == n
  {
    VersionIsRecognised(n, l, v);
    SmallMod(n, l.k);
    SmallMod(n, l.k + 1);
    Divides(n, l, v, v);
    CountIs(n, l.Size(v));
  }

  lemma CountIs(n: nat, size: nat)
    requires size >= 1
    ensures n * size / size == n
  {
    var q := n * size / size;
    ModOfSum(n, size, 0);
    assert q * size == n * size;
    Grows(q - n, size);
  }

  /** A list of k records of version 9 is taken for k+1 records of version 6. */
  lemma LongListIsMisread(l: Layout)
    requires l.Valid()
    ensures Infer(l.k * l.Size(V9), l) == Some(V6)
    ensures l.k * l.Size(V9) / l.Size(V6) == l.k + 1
  {
    Divides(l.k, l, V9, V6);
    assert l.k % l.k == 0 by { ModOfSum(1, l.k, 0); }
    assert l.k * l.Size(V9) == (l.k + 1) * l.Size(V6);
    CountIs(l.k + 1, l.Size(V6));
  }

  // Decoding.

  /** A record copied over a zeroed record of the newest version. */
  function Padded(record: seq<Byte>, size: nat): (r: seq<Byte>)
    requires |record| <= size
    ensures |r| == size && r[..|record|] == record && forall i :: |record| <= i < size ==> r[i] == 0
  {
    record + seq(size - |record|, _ => 0)
  }

  function Record(data: seq<Byte>, size: nat, i: nat): seq<Byte>
    requires (i + 1) * size <= |data|
  {
    assert i * size <= (i + 1) * size;
    data[i * size..(i + 1) * size]
  }

  lemma RecordFits(data: seq<Byte>, size: nat, i: nat)
    requires size >= 1 && i < |data| / size
    ensures (i + 1) * size <= |data| && |Record(data, size, i)| == size
  {
    var q := |data| / size;
    assert q * size <= |data|;
    assert (q - (i + 1)) * size >= 0;
    assert (i + 1) * size - i * size == size;
  }

  /** The first n records, each copied over a zeroed record of the full size. */
  function Copied(data: seq<Byte>, size: nat, full: nat, n: nat): (r: seq<seq<Byte>>)
    requires 1 <= size <= full && n <= |data| / size
    ensures |r| == n
  {
    if n == 0 then []
    else
      RecordFits(data, size, n - 1);
      Copied(data, size, full, n - 1) + [Padded(Record(data, size, n - 1), full)]
  }

  lemma SizesGrow(l: Layout, v: Version)
    requires l.Valid()
    ensures 1 <= l.Size(v) <= l.Size(V11)
  {
    assert (l.Units(V11) - l.Units(v)) * l.w >= 0;
    assert (l.Units(v) - 1) * l.w >= 0;
  }

  function Decode(data: seq<Byte>, l: Layout): Option<seq<seq<Byte>>>
    requires l.Valid()
  {
    match Infer(|data|, l)
    case None => None
    case Some(v) =>
      SizesGrow(l, v);
      Some(Copied(data, l.Size(v), l.Size(V11), Min(|data| / l.Size(v), URIL_DATA_MAX_CALLS_COUNT)))
  }

  function Concatenated(records: seq<seq<Byte>>): seq<Byte> {
    if records == [] then [] else Concatenated(records[..|records| - 1]) + records[|records| - 1]
  }

  lemma {:induction false} ConcatenatedLength(records: seq<seq<Byte>>, size: nat)
    requires forall i :: 0 <= i < |records| ==> |records[i]| == size
    ensures |Concatenated(records)| == |records| * size
  {
    if records != [] {
      var n := |records| - 1;
      ConcatenatedLength(records[..n], size);
      assert (n + 1) * size == n * size + size;
    }
  }

  lemma {:induction false} RecordOfConcatenated(records: seq<seq<Byte>>, size: nat, i: nat)
    requires i < |records| && forall j :: 0 <= j < |records| ==> |records[j]| == size
    ensures (i + 1) * size <= |Concatenated(records)| && Record(Concatenated(records), size, i) == records[i]
  {
    var n := |records| - 1;
    var init := records[..n];
    ConcatenatedLength(init, size);
    var lo, hi := i * size, (i + 1) * size;
    assert hi == lo + size;
    if i == n {
      SliceOfConcat(Concatenated(init), records[n], lo, hi);
    } else {
      RecordOfConcatenated(init, size, i);
      SliceOfConcat(Concatenated(init), records[n], lo, hi);
    }
  }

  lemma SliceOfConcat<T>(x: seq<T>, y: seq<T>, lo: nat, hi: nat)
    requires lo <= hi
    ensures hi <= |x| ==> hi <= |x + y| && (x + y)[lo..hi] == x[lo..hi]
    ensures lo == |x| && hi == |x| + |y| ==> (x + y)[lo..hi] == y
  {
  }

  /** A recognised list is decoded to its first six records, in order. */
  lemma RecognisedListIsDecoded(records: seq<seq<Byte>>, l: Layout, v: Version)
    requires l.Valid() && Telling(|records|, l, v)
    requires forall i :: 0 <= i < |records| ==> |records[i]| == l.Size(v)
    ensures Decode(Concatenated(records), l).Some?
    ensures var got := Decode(Concatenated(records), l).value;
            && |got| == Min(|records|, URIL_DATA_MAX_CALLS_COUNT)
            && forall i :: 0 <= i < |got| ==> l.Size(v) <= l.Size(V11) && got[i] == Padded(records[i], l.Size(V11))
  {
    var n := |records|;
    SizesGrow(l, v);
    ConcatenatedLength(records, l.Size(v));
    VersionIsRecognised(n, l, v);
    CountIs(n, l.Size(v));
    CopiesRecords(records, l.Size(v), l.Size(V11), Min(n, URIL_DATA_MAX_CALLS_COUNT));
  }

  /** On both platforms no list that a response can hold is misread, the empty one included. */
  lemma HeldListsAreDecoded(records: seq<seq<Byte>>, l: Layout, v: Version)
    requires OnPlatform(l)
    requires |records| <= 6
    requires forall i :: 0 <= i < |records| ==> |records[i]| == l.Size(v)
    ensures l.Size(v) <= l.Size(V11)
    ensures Decode(Concatenated(records), l)
         == Some(seq(|records|, i requires 0 <= i < |records| => Padded(records[i], l.Size(V11))))
  {
    SizesGrow(l, v);
    var n := |records|;
    if n >= 1 {
      ShortListsAreRecognised(n, l, v);
      VersionIsRecognised(n, l, v);
      RecognisedListIsDecoded(records, l, v);
    }
    var got := Decode(Concatenated(records), l);
    assert got.Some? && |got.value| == n;
    assert got.value == seq(n, i requires 0 <= i < n => Padded(records[i], l.Size(V11)));
  }

  lemma {:induction false} CopiesRecords(records: seq<seq<Byte>>, size: nat, full: nat, n: nat)
    requires 1 <= size <= full && n <= |records|
    requires forall i :: 0 <= i < |records| ==> |records[i]| == size
    requires n <= |Concatenated(records)| / size
    ensures var got := Copied(Concatenated(records), size, full, n);
            forall i :: 0 <= i < n ==> got[i] == Padded(records[i], full)
  {
    if n > 0 {
      CopiesRecords(records, size, full, n - 1);
      RecordOfConcatenated(records, size, n - 1);
    }
  }

  /** The inferred version is determined by what it is. */
  lemma SmallestDivides(len: nat, l: Layout, ver: Option<Version>)
    requires l.Valid() && forall v: Version :: l.Size(v) >= 1
    requires ver.None? <==> forall v: Version :: len % l.Size(v) != 0
    requires ver.Some? ==> len % l.Size(ver.value) == 0
    requires ver.Some? ==> forall v: Version | len % l.Size(v) == 0 :: l.Size(ver.value) <= l.Size(v)
    ensures ver == Infer(len, l)
  {
    SizeOrder(l);
  }

  lemma SizeOrder(l: Layout)
    requires l.Valid()
    ensures l.Size(V6) < l.Size(V9) < l.Size(V11)
  {
    assert l.Size(V9) == l.Size(V6) + l.w && l.Size(V11) == l.Size(V9) + l.w;
  }

  /** The version whose records are the smallest that fill the length; for the length of a list of n records
      of version v that is v exactly if n is telling. */
  method InferVersion(len: nat, l: Layout) returns (ver: Option<Version>)
    requires l.Valid()
    ensures forall v: Version :: l.Size(v) >= 1
    ensures ver.None? <==> forall v: Version :: len % l.Size(v) != 0
    ensures ver.Some? ==> len % l.Size(ver.value) == 0
    ensures ver.Some? ==> forall v: Version | len % l.Size(v) == 0 :: l.Size(ver.value) <= l.Size(v)
    ensures forall n: nat, v: Version | len == n * l.Size(v) :: ver == Some(v) <==> Telling(n, l, v)
  {
    forall n: nat, v: Version | len == n * l.Size(v) ensures Infer(len, l) == Some(v) <==> Telling(n, l, v) {
      VersionIsRecognised(n, l, v);
    }
    SizesGrow(l, V6);
    SizesGrow(l, V9);
    SizesGrow(l, V11);
    if len % l.Size(V6) == 0 {
      ver := Some(V6);
    } else if len % l.Size(V9) == 0 {
      ver := Some(V9);
    } else if len % l.Size(V11) == 0 {
      ver := Some(V11);
    } else {
      ver := None;
    }
  }
}
