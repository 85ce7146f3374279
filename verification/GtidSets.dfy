/**
  MySQL GTID sets as the operator computes with them: per source UUID a sorted,
  coalesced list of 64-bit transaction ranges. Every operation is shown to be
  the set operation it is named after, on the set of (source, number) pairs the
  lists stand for, and equal sets to have equal lists.
*/
module GtidSets {
  const MAX := 0x7FFF_FFFF_FFFF_FFFF

  /** What a 64-bit register holds of an integer. */
  function Int64(x: int): int {
    (x + 0x8000_0000_0000_0000) % 0x1_0000_0000_0000_0000 - 0x8000_0000_0000_0000
  }

  lemma Fits(x: int)
    requires 0 <= x <= MAX
    ensures Int64(x) == x
  {
  }

  type Uuid = string

  datatype Interval = Interval(start: int, end: int)

  predicate Proper(iv: Interval) {
    1 <= iv.start <= iv.end <= MAX
  }

  predicate Has(iv: Interval, x: int) {
    iv.start <= x <= iv.end
  }

  predicate Mem(s: seq<Interval>, x: int) {
    exists k :: 0 <= k < |s| && Has(s[k], x)
  }

  /** Sorted, disjoint, and with a hole between any two neighbours. */
  predicate Normal(s: seq<Interval>) {
    && (forall k :: 0 <= k < |s| ==> Proper(s[k]))
    && (forall i, j :: 0 <= i < j < |s| ==> s[i].end + 1 < s[j].start)
  }

  /** What every constructor of a set leaves: normal lists, none of them empty. */
  type GtidSet = s: map<Uuid, seq<Interval>> | forall u :: u in s ==> Normal(s[u]) && s[u] != []

  function Get(s: GtidSet, u: Uuid): (r: seq<Interval>)
    ensures Normal(r)
  {
    if u in s then s[u] else []
  }

  ghost function Pairs(s: map<Uuid, seq<Interval>>): set<(Uuid, int)> {
    set u: Uuid, x: int | u in s && 1 <= x <= MAX && Mem(s[u], x) :: (u, x)
  }

  ghost function Tx(s: GtidSet): set<(Uuid, int)> {
    Pairs(s)
  }

  // ---- The normal form ----

  predicate Sorted(s: seq<Interval>) {
    forall i, j :: 0 <= i < j < |s| ==> s[i].start <= s[j].start
  }

  function Insert(iv: Interval, s: seq<Interval>): (r: seq<Interval>)
    requires Sorted(s)
    ensures |r| == |s| + 1 && Sorted(r)
    ensures forall m :: m in r <==> m == iv || m in s
  {
    if s == [] || iv.start < s[0].start then
      [iv] + s
    else
      assert s == [s[0]] + s[1..];
      var t := Insert(iv, s[1..]);
      assert forall k :: 0 <= k < |t| ==> t[k] in t;
      [s[0]] + t
  }

  /** Sorting by start; how it breaks ties makes no difference to what follows. */
  function SortByStart(s: seq<Interval>): (r: seq<Interval>)
    ensures |r| == |s| && Sorted(r)
    ensures forall m :: m in r <==> m in s
  {
    if s == [] then [] else
      assert s == [s[0]] + s[1..];
      Insert(s[0], SortByStart(s[1..]))
  }

  lemma SameElements(a: seq<Interval>, b: seq<Interval>)
    requires forall m :: m in a <==> m in b
    ensures forall x :: Mem(a, x) <==> Mem(b, x)
    ensures (forall k :: 0 <= k < |a| ==> Proper(a[k])) ==> forall k :: 0 <= k < |b| ==> Proper(b[k])
  {
    assert forall k :: 0 <= k < |a| ==> a[k] in b;
    assert forall k :: 0 <= k < |b| ==> b[k] in a;
    forall x ensures Mem(a, x) <==> Mem(b, x) {
      if k :| 0 <= k < |a| && Has(a[k], x) {
        var j :| 0 <= j < |b| && b[j] == a[k];
      }
      if k :| 0 <= k < |b| && Has(b[k], x) {
        var j :| 0 <= j < |a| && a[j] == b[k];
      }
    }
  }

  lemma MemAppend(a: seq<Interval>, b: seq<Interval>)
    ensures forall x :: Mem(a + b, x) <==> Mem(a, x) || Mem(b, x)
  {
    forall x ensures Mem(a + b, x) <==> Mem(a, x) || Mem(b, x) {
      if k :| 0 <= k < |a| && Has(a[k], x) {
        assert Has((a + b)[k], x);
      }
      if k :| 0 <= k < |b| && Has(b[k], x) {
        assert Has((a + b)[|a| + k], x);
      }
    }
  }

  lemma MemOne(iv: Interval)
    ensures forall x :: Mem([iv], x) <==> Has(iv, x)
  {
    forall x ensures Mem([iv], x) <==> Has(iv, x) {
      assert [iv][0] == iv;
    }
  }

  method NormalizeIntervals(s: seq<Interval>) returns (r: seq<Interval>)
    requires forall k :: 0 <= k < |s| ==> Proper(s[k])
    ensures Normal(r) && (s != [] ==> r != [])
    ensures forall x :: Mem(r, x) <==> Mem(s, x)
  {
    hide Int64;
    if |s| <= 1 {
      return s;
    }
    var t := SortByStart(s);
    SameElements(s, t);
    r := [t[0]];
    assert t[..1] == r;
    for n := 1 to |t|
      invariant r != [] && Normal(r)
      invariant r[|r| - 1].start <= t[n - 1].start
      invariant forall x :: Mem(r, x) <==> Mem(t[..n], x)
    {
      var last, iv := r[|r| - 1], t[n];
      assert t[..n + 1] == t[..n] + [iv];
      MemAppend(t[..n], [iv]);
      MemOne(iv);
      ghost var was := r;
      if last.end != MAX { Fits(last.end + 1); }
      if last.end == MAX || iv.start <= Int64(last.end + 1) {
        if iv.end > last.end {
          r := r[..|r| - 1] + [last.(end := iv.end)];
        }
        Absorb(was, r, iv);
      } else {
        r := r + [iv];
        Extend(was, iv);
      }
    }
    assert t[..|t|] == t;
  }

  lemma Extend(s: seq<Interval>, iv: Interval)
    requires Normal(s) && Proper(iv)
    requires s != [] ==> s[|s| - 1].end + 1 < iv.start
    ensures Normal(s + [iv])
    ensures forall x :: Mem(s + [iv], x) <==> Mem(s, x) || Has(iv, x)
  {
    assert forall k :: 0 <= k < |s| ==> s[k].end <= s[|s| - 1].end;
    MemAppend(s, [iv]);
    MemOne(iv);
  }

  /** Growing the last range to take in one that starts no later than its successor adds just that one. */
  lemma Absorb(s: seq<Interval>, r: seq<Interval>, iv: Interval)
    requires s != [] && Normal(s) && Proper(iv)
    requires s[|s| - 1].start <= iv.start <= s[|s| - 1].end + 1
    requires r == if iv.end > s[|s| - 1].end then s[..|s| - 1] + [s[|s| - 1].(end := iv.end)] else s
    ensures Normal(r) && r != []
    ensures forall x :: Mem(r, x) <==> Mem(s, x) || Has(iv, x)
  {
    var n := |s| - 1;
    assert s == s[..n] + [s[n]] && r == s[..n] + [r[n]];
    MemAppend(s[..n], [s[n]]);
    MemAppend(s[..n], [r[n]]);
    MemOne(s[n]);
    MemOne(r[n]);
  }

  /** One set, one list: comparing renderings compares sets. */
  lemma {:induction false} Canonical(a: seq<Interval>, b: seq<Interval>)
    requires Normal(a) && Normal(b)
    requires forall x :: Mem(a, x) <==> Mem(b, x)
    ensures a == b
  {
    if a == [] || b == [] {
      if a != [] { assert Has(a[0], a[0].start); assert Mem(a, a[0].start); }
      if b != [] { assert Has(b[0], b[0].start); assert Mem(b, b[0].start); }
      return;
    }
    FirstRange(a, b);
    FirstRange(b, a);
    forall x ensures Mem(a[1..], x) <==> Mem(b[1..], x) {
      Tail(a, x);
      Tail(b, x);
    }
    Canonical(a[1..], b[1..]);
  }

  lemma Tail(s: seq<Interval>, x: int)
    requires s != [] && Normal(s)
    ensures Mem(s[1..], x) <==> Mem(s, x) && s[0].end < x
  {
    assert s == [s[0]] + s[1..];
    MemAppend([s[0]], s[1..]);
    MemOne(s[0]);
    assert forall k :: 0 <= k < |s| - 1 ==> s[1..][k] == s[k + 1];
  }

  lemma FirstRange(a: seq<Interval>, b: seq<Interval>)
    requires Normal(a) && Normal(b) && a != [] && b != []
    requires forall x :: Mem(a, x) <==> Mem(b, x)
    ensures a[0].start <= b[0].start && a[0].end <= b[0].end
  {
    assert Has(b[0], b[0].start);
    assert Mem(b, b[0].start);
    if b[0].end < a[0].end {
      assert Has(a[0], b[0].end + 1);
      Tail(b, b[0].end + 1);
      assert false;
    }
  }

  lemma PairsDecide(a: GtidSet, b: GtidSet)
    ensures Tx(a) == Tx(b) <==> a == b
  {
    if Tx(a) == Tx(b) {
      forall u ensures Get(a, u) == Get(b, u) {
        forall x ensures Mem(Get(a, u), x) <==> Mem(Get(b, u), x) {
          InTx(a, u, x);
          InTx(b, u, x);
        }
        Canonical(Get(a, u), Get(b, u));
      }
      forall u ensures u in a <==> u in b {
        assert Get(a, u) == Get(b, u);
      }
      forall u | u in a ensures a[u] == b[u] {
        assert Get(a, u) == Get(b, u);
      }
    }
  }

  lemma InTx(s: GtidSet, u: Uuid, x: int)
    ensures (u, x) in Tx(s) <==> Mem(Get(s, u), x)
  {
    if Mem(Get(s, u), x) {
      var k :| 0 <= k < |Get(s, u)| && Has(Get(s, u)[k], x);
      assert Proper(Get(s, u)[k]);
    }
  }

  // ---- Ranges against a normal list ----

  method Covers(mine: seq<Interval>, iv: Interval) returns (r: bool)
    requires Normal(mine) && Proper(iv)
    ensures r <==> forall x :: Has(iv, x) ==> Mem(mine, x)
  {
    for k := 0 to |mine|
      invariant forall j :: 0 <= j < k ==> !(mine[j].start <= iv.start && iv.end <= mine[j].end)
    {
      if mine[k].start <= iv.start && iv.end <= mine[k].end {
        return true;
      }
    }
    Uncovered(mine, iv);
    return false;
  }

  /** A run of numbers inside a normal list lies inside one of its ranges. */
  lemma Uncovered(mine: seq<Interval>, iv: Interval)
    requires Normal(mine) && Proper(iv)
    requires forall j :: 0 <= j < |mine| ==> !(mine[j].start <= iv.start && iv.end <= mine[j].end)
    ensures exists x :: Has(iv, x) && !Mem(mine, x)
  {
    if Mem(mine, iv.start) {
      var k :| 0 <= k < |mine| && Has(mine[k], iv.start);
      var x := mine[k].end + 1;
      forall j | 0 <= j < |mine| ensures !Has(mine[j], x) {
        assert j < k ==> mine[j].end + 1 < mine[k].start;
        assert k < j ==> mine[k].end + 1 < mine[j].start;
      }
      assert Has(iv, x) && !Mem(mine, x);
    } else {
      assert Has(iv, iv.start);
    }
  }

  /** The part of a range no range of `sub` covers, in one sweep. */
  method Minus(iv: Interval, sub: seq<Interval>) returns (r: seq<Interval>)
    requires Proper(iv) && Normal(sub)
    ensures Normal(r)
    ensures forall x :: Mem(r, x) <==> Has(iv, x) && !Mem(sub, x)
  {
    hide Int64;
    r := [];
    var start := iv.start;
    for k := 0 to |sub|
      invariant Normal(r) && iv.start <= start <= iv.end
      invariant r != [] ==> r[|r| - 1].end + 1 < start
      invariant forall x :: Mem(r, x) <==> iv.start <= x < start && !Mem(sub, x)
      invariant forall j :: 0 <= j < k ==> sub[j].end < start
      invariant k == |sub| ==> forall x :: start <= x <= iv.end ==> !Mem(sub, x)
    {
      var m := sub[k];
      if m.end < start {
        continue;
      }
      if m.start > iv.end {
        break;
      }
      BeforeRest(sub, k, start, m.start - 1);
      if m.start > start {
        Extend(r, Interval(start, m.start - 1));
        r := r + [Interval(start, m.start - 1)];
      }
      assert forall x :: Has(m, x) ==> Mem(sub, x);
      if m.end >= iv.end {
        return;
      }
      Fits(m.end + 1);
      start := Int64(m.end + 1);
    }
    Extend(r, Interval(start, iv.end));
    r := r + [Interval(start, iv.end)];
  }

  lemma BeforeRest(sub: seq<Interval>, k: int, from: int, to: int)
    requires Normal(sub) && 0 <= k <= |sub|
    requires forall j :: 0 <= j < k ==> sub[j].end < from
    requires k < |sub| ==> to < sub[k].start
    ensures forall x :: from <= x <= to ==> !Mem(sub, x)
  {
  }

  // ---- Sets ----

  ghost predicate In(s: GtidSet, u: Uuid, x: int) {
    Mem(Get(s, u), x)
  }

  lemma TxIs(s: GtidSet)
    ensures forall u, x :: (u, x) in Tx(s) <==> In(s, u, x)
  {
    forall u, x ensures (u, x) in Tx(s) <==> In(s, u, x) {
      InTx(s, u, x);
    }
  }

  method AddInterval(s: GtidSet, u: Uuid, iv: Interval) returns (r: GtidSet)
    requires Proper(iv)
    ensures forall v, x :: In(r, v, x) <==> In(s, v, x) || (v == u && Has(iv, x))
  {
    var all := Get(s, u) + [iv];
    var list := NormalizeIntervals(all);
    MemAppend(Get(s, u), [iv]);
    MemOne(iv);
    r := s[u := list];
    forall v, x ensures In(r, v, x) <==> In(s, v, x) || (v == u && Has(iv, x)) {
      assert Get(r, v) == if v == u then list else Get(s, v);
    }
  }

  method Union(s: GtidSet, other: GtidSet) returns (r: GtidSet)
    ensures Tx(r) == Tx(s) + Tx(other)
  {
    r := s;
    var rest := other.Keys;
    while rest != {}
      invariant rest <= other.Keys
      invariant forall v, x :: In(r, v, x) <==> In(s, v, x) || (v !in rest && In(other, v, x))
    {
      var u :| u in rest;
      ghost var was := r;
      for k := 0 to |other[u]|
        invariant forall v, x :: In(r, v, x) <==> In(was, v, x) || (v == u && Mem(other[u][..k], x))
      {
        r := AddInterval(r, u, other[u][k]);
        assert other[u][..k + 1] == other[u][..k] + [other[u][k]];
        MemAppend(other[u][..k], [other[u][k]]);
        MemOne(other[u][k]);
      }
      assert other[u][..|other[u]|] == Get(other, u);
      rest := rest - {u};
    }
    forall v, x ensures In(r, v, x) <==> In(s, v, x) || In(other, v, x) {}
    TxIs(r);
    TxIs(s);
    TxIs(other);
  }

  /** What the list of one source loses to the list of the same source in the other set. */
  method MinusAll(a: seq<Interval>, b: seq<Interval>) returns (r: seq<Interval>)
    requires Normal(a) && Normal(b)
    ensures Normal(r)
    ensures forall x :: Mem(r, x) <==> Mem(a, x) && !Mem(b, x)
  {
    r := [];
    for k := 0 to |a|
      invariant Normal(r)
      invariant r != [] ==> k > 0 && r[|r| - 1].end <= a[k - 1].end
      invariant forall x :: Mem(r, x) <==> Mem(a[..k], x) && !Mem(b, x)
    {
      var kept := Minus(a[k], b);
      if kept != [] {
        Within(kept, a[k], b);
      }
      MemAppend(r, kept);
      assert a[..k + 1] == a[..k] + [a[k]];
      MemAppend(a[..k], [a[k]]);
      MemOne(a[k]);
      Joined(r, kept);
      r := r + kept;
    }
    assert a[..|a|] == a;
  }

  lemma Within(kept: seq<Interval>, iv: Interval, b: seq<Interval>)
    requires kept != [] && Normal(kept)
    requires forall x :: Mem(kept, x) <==> Has(iv, x) && !Mem(b, x)
    ensures iv.start <= kept[0].start && kept[|kept| - 1].end <= iv.end
  {
    assert Has(kept[0], kept[0].start) && Has(kept[|kept| - 1], kept[|kept| - 1].end);
    assert Mem(kept, kept[0].start) && Mem(kept, kept[|kept| - 1].end);
  }

  lemma Joined(a: seq<Interval>, b: seq<Interval>)
    requires Normal(a) && Normal(b)
    requires a != [] && b != [] ==> a[|a| - 1].end + 1 < b[0].start
    ensures Normal(a + b)
  {
    var all := a + b;
    forall i, j | 0 <= i < j < |all| ensures all[i].end + 1 < all[j].start {
      if i < |a| <= j {
        assert a[i].end <= a[|a| - 1].end && b[0].start <= b[j - |a|].start;
      }
    }
  }

  /** A set without the source, with that source's list added unless it is empty. */
  function With(s: GtidSet, u: Uuid, list: seq<Interval>): (r: GtidSet)
    requires u !in s && Normal(list)
    ensures r.Keys <= s.Keys + {u}
    ensures forall v :: Get(r, v) == if v == u then list else Get(s, v)
  {
    if list == [] then s else s[u := list]
  }

  method Difference(s: GtidSet, other: GtidSet) returns (r: GtidSet)
    ensures Tx(r) == Tx(s) - Tx(other)
  {
    hide Normal, With;
    r := map[];
    var rest := s.Keys;
    while rest != {}
      invariant rest <= s.Keys && r.Keys !! rest
      invariant forall v, x :: In(r, v, x) <==> v !in rest && In(s, v, x) && !In(other, v, x)
    {
      var u :| u in rest;
      var kept := MinusAll(s[u], Get(other, u));
      r := With(r, u, kept);
      rest := rest - {u};
    }
    TxIs(r);
    TxIs(s);
    TxIs(other);
  }

  method Contains(s: GtidSet, other: GtidSet) returns (r: bool)
    ensures r <==> Tx(other) <= Tx(s)
  {
    TxIs(s);
    TxIs(other);
    var rest := other.Keys;
    while rest != {}
      invariant rest <= other.Keys
      invariant forall v, x :: v !in rest && In(other, v, x) ==> In(s, v, x)
    {
      var u :| u in rest;
      rest := rest - {u};
      if u !in s {
        assert Has(other[u][0], other[u][0].start);
        assert In(other, u, other[u][0].start) && !In(s, u, other[u][0].start);
        return other[u] == [];
      }
      for k := 0 to |other[u]|
        invariant forall j, x :: 0 <= j < k && Has(other[u][j], x) ==> In(s, u, x)
      {
        var covered := Covers(s[u], other[u][k]);
        if !covered {
          var x :| Has(other[u][k], x) && !Mem(s[u], x);
          assert In(other, u, x) && !In(s, u, x);
          return false;
        }
      }
    }
    forall p | p in Tx(other) ensures p in Tx(s) {
      assert In(other, p.0, p.1);
    }
    return true;
  }

  method Equal(s: GtidSet, other: GtidSet) returns (r: bool)
    ensures r <==> s == other
  {
    r := Contains(s, other);
    if r {
      r := Contains(other, s);
    }
    PairsDecide(s, other);
  }

  method Intersects(a: GtidSet, b: GtidSet) returns (r: bool)
    ensures r <==> Tx(a) * Tx(b) != {}
  {
    var rest := Difference(a, b);
    var same := Equal(rest, a);
    r := !same;
    PairsDecide(rest, a);
    Apart(Tx(a), Tx(b));
  }

  lemma Apart<T>(a: set<T>, b: set<T>)
    ensures a - b == a <==> a * b == {}
  {
    assert forall p :: p in a && p in b <==> p in a * b;
  }

  method Intersect(a: GtidSet, b: GtidSet) returns (r: GtidSet)
    ensures Tx(r) == Tx(a) * Tx(b)
  {
    var rest := Difference(a, b);
    r := Difference(a, rest);
  }

  /** A number missing from a list between two it holds. */
  ghost predicate Skipped(s: seq<Interval>, x: int) {
    !Mem(s, x) && exists y, z :: y < x < z && Mem(s, y) && Mem(s, z)
  }

  lemma SkippedIs(s: seq<Interval>, x: int)
    requires Normal(s) && s != []
    ensures Skipped(s, x) <==> s[0].start < x < s[|s| - 1].start && !Mem(s, x)
  {
    assert Has(s[0], s[0].start) && Has(s[|s| - 1], s[|s| - 1].start);
    assert Mem(s, s[0].start) && Mem(s, s[|s| - 1].start);
    assert forall k :: 0 <= k < |s| ==> s[0].start <= s[k].start && s[k].end <= s[|s| - 1].end;
    assert Has(s[|s| - 1], x) ==> Mem(s, x);
  }

  method Gaps(s: seq<Interval>) returns (r: seq<Interval>)
    requires Normal(s)
    ensures Normal(r)
    ensures forall x :: Mem(r, x) <==> Skipped(s, x)
  {
    hide Int64;
    r := [];
    var i := 1;
    while i < |s|
      invariant 1 <= i && (s != [] ==> i <= |s|)
      invariant Normal(r) && (s == [] ==> r == [])
      invariant r != [] ==> r[|r| - 1].end + 1 == s[i - 1].start
      invariant s != [] ==> forall x :: Mem(r, x) <==> s[0].start < x < s[i - 1].start && !Mem(s, x)
    {
      assert s[i - 1].end + 1 < s[i].start;
      Fits(s[i - 1].end + 1);
      var hole := Interval(Int64(s[i - 1].end + 1), s[i].start - 1);
      Extend(r, hole);
      Hole(s, i);
      r := r + [hole];
      i := i + 1;
    }
    if s != [] {
      forall x ensures Mem(r, x) <==> Skipped(s, x) {
        SkippedIs(s, x);
      }
    }
  }

  lemma Hole(s: seq<Interval>, i: int)
    requires Normal(s) && 1 <= i < |s|
    ensures forall x :: s[i - 1].start <= x < s[i].start ==> (Mem(s, x) <==> x <= s[i - 1].end)
    ensures s[0].start <= s[i - 1].start
  {
    BeforeRest(s, i, s[i - 1].end + 1, s[i].start - 1);
    assert forall x :: Has(s[i - 1], x) ==> Mem(s, x);
  }

  method Holes(s: GtidSet) returns (r: GtidSet)
    ensures forall u, x :: (u, x) in Tx(r) <==> Skipped(Get(s, u), x)
  {
    hide Normal, With;
    r := map[];
    var rest := s.Keys;
    while rest != {}
      invariant rest <= s.Keys && r.Keys !! rest
      invariant forall v, x :: In(r, v, x) <==> v !in rest && Skipped(Get(s, v), x)
    {
      var u :| u in rest;
      var gaps := Gaps(s[u]);
      r := With(r, u, gaps);
      rest := rest - {u};
    }
    TxIs(r);
  }

  // ---- Counting what is missing ----

  /** The numbers of a range that a list does not hold. */
  ghost function Left(iv: Interval, mine: seq<Interval>): set<int> {
    set x: int | iv.start <= x <= iv.end && !Mem(mine, x)
  }

  lemma {:induction false} RangeSize(lo: int, hi: int)
    requires lo <= hi + 1
    ensures |Left(Interval(lo, hi), [])| == hi - lo + 1
    decreases hi - lo
  {
    if lo <= hi {
      RangeSize(lo, hi - 1);
      assert Left(Interval(lo, hi), []) == Left(Interval(lo, hi - 1), []) + {hi};
    } else {
      assert Left(Interval(lo, hi), []) == {};
    }
  }

  function Max(a: int, b: int): int {
    if a > b then a else b
  }

  function Min(a: int, b: int): int {
    if a < b then a else b
  }

  method UncoveredBy(iv: Interval, mine: seq<Interval>) returns (n: int)
    requires Proper(iv) && Normal(mine)
    ensures n == |Left(iv, mine)| <= MAX
  {
    hide Int64, Left;
    Fits(iv.end - iv.start);
    Fits(iv.end - iv.start + 1);
    var remaining := Int64(Int64(iv.end - iv.start) + 1);
    assert mine[..0] == [] && iv == Interval(iv.start, iv.end);
    RangeSize(iv.start, iv.end);
    for k := 0 to |mine|
      invariant 0 <= remaining == |Left(iv, mine[..k])| <= MAX
    {
      var m := mine[k];
      if m.end < iv.start {
        Missed(iv, mine, k);
        continue;
      }
      if m.start > iv.end {
        Beyond(iv, mine, k);
        return Max(remaining, 0);
      }
      Overlap(iv, mine, k);
      var size := Min(m.end, iv.end) - Max(m.start, iv.start);
      Fits(size);
      Fits(size + 1);
      Fits(remaining - (size + 1));
      remaining := Int64(remaining - Int64(Int64(size) + 1));
    }
    assert mine[..|mine|] == mine;
    n := Max(remaining, 0);
  }

  lemma Missed(iv: Interval, mine: seq<Interval>, k: int)
    requires 0 <= k < |mine| && mine[k].end < iv.start
    ensures Left(iv, mine[..k + 1]) == Left(iv, mine[..k])
  {
    assert mine[..k + 1] == mine[..k] + [mine[k]];
    MemAppend(mine[..k], [mine[k]]);
    MemOne(mine[k]);
  }

  lemma Beyond(iv: Interval, mine: seq<Interval>, k: int)
    requires Normal(mine) && 0 <= k < |mine| && iv.end < mine[k].start
    ensures Left(iv, mine) == Left(iv, mine[..k])
  {
    assert mine == mine[..k] + mine[k..];
    MemAppend(mine[..k], mine[k..]);
    assert forall j :: 0 <= j < |mine[k..]| ==> mine[k..][j] == mine[k + j] && iv.end < mine[k + j].start;
  }

  lemma Overlap(iv: Interval, mine: seq<Interval>, k: int)
    requires Proper(iv) && Normal(mine) && 0 <= k < |mine|
    requires iv.start <= mine[k].end && mine[k].start <= iv.end
    ensures |Left(iv, mine[..k + 1])| ==
            |Left(iv, mine[..k])| - (Min(mine[k].end, iv.end) - Max(mine[k].start, iv.start) + 1)
  {
    var m := mine[k];
    var common := Interval(Max(m.start, iv.start), Min(m.end, iv.end));
    assert mine[..k + 1] == mine[..k] + [m];
    MemAppend(mine[..k], [m]);
    MemOne(m);
    RangeSize(common.start, common.end);
    assert forall x :: Mem(mine[..k], x) ==> x < m.start;
    assert Left(common, []) <= Left(iv, mine[..k]);
    assert Left(iv, mine[..k + 1]) == Left(iv, mine[..k]) - Left(common, []);
  }

  ghost function Tagged(u: Uuid, xs: set<int>): set<(Uuid, int)> {
    set x | x in xs :: (u, x)
  }

  lemma {:induction false} TaggedSize(u: Uuid, xs: set<int>)
    ensures |Tagged(u, xs)| == |xs|
  {
    if forall x :: x !in xs {
      assert xs == {} && Tagged(u, xs) == {};
    } else {
      var x :| x in xs;
      TaggedSize(u, xs - {x});
      assert Tagged(u, xs) == Tagged(u, xs - {x}) + {(u, x)};
    }
  }

  lemma Grows(done: set<(Uuid, int)>, u: Uuid, xs: set<int>)
    requires forall x :: x in xs ==> (u, x) !in done
    ensures |done + Tagged(u, xs)| == |done| + |xs|
  {
    TaggedSize(u, xs);
    assert done !! Tagged(u, xs);
  }

  lemma NoLarger<T>(a: set<T>, b: set<T>)
    requires a <= b
    ensures |a| <= |b|
  {
    assert b == a + (b - a);
  }

  ghost function Missing(list: seq<Interval>, mine: seq<Interval>): set<int> {
    set x: int | 1 <= x <= MAX && Mem(list, x) && !Mem(mine, x)
  }

  /** Adds one source's missing transactions to a running count, unless the sum no longer fits. */
  method MissingOf(sofar: int, list: seq<Interval>, mine: seq<Interval>) returns (missing: int, full: bool)
    requires 0 <= sofar <= MAX && Normal(list) && Normal(mine)
    ensures full <==> sofar + |Missing(list, mine)| > MAX
    ensures !full ==> missing == sofar + |Missing(list, mine)|
  {
    hide Int64, Left, Missing;
    missing := sofar;
    NothingMissing(list, mine);
    for k := 0 to |list|
      invariant missing == sofar + |Missing(list[..k], mine)| <= MAX
    {
      var n := UncoveredBy(list[k], mine);
      MissingStep(list, mine, k);
      Fits(MAX - n);
      if missing > Int64(MAX - n) {
        return MAX, true;
      }
      Fits(missing + n);
      missing := Int64(missing + n);
    }
    assert list[..|list|] == list;
    full := false;
  }

  lemma NothingMissing(list: seq<Interval>, mine: seq<Interval>)
    ensures Missing(list[..0], mine) == {}
  {
  }

  lemma MissingStep(list: seq<Interval>, mine: seq<Interval>, k: int)
    requires Normal(list) && 0 <= k < |list|
    ensures |Missing(list[..k + 1], mine)| == |Missing(list[..k], mine)| + |Left(list[k], mine)|
    ensures |Missing(list[..k + 1], mine)| <= |Missing(list, mine)|
  {
    FreshRange(list, k);
    assert Missing(list[..k + 1], mine) == Missing(list[..k], mine) + Left(list[k], mine);
    assert Missing(list[..k], mine) !! Left(list[k], mine);
    assert list == list[..k + 1] + list[k + 1..];
    MemAppend(list[..k + 1], list[k + 1..]);
    NoLarger(Missing(list[..k + 1], mine), Missing(list, mine));
  }

  /** How many transactions of `other` are missing, saturating at the largest count. */
  method MissingCount(s: GtidSet, other: GtidSet) returns (missing: int)
    ensures missing == Min(MAX, |Tx(other) - Tx(s)|)
  {
    hide Tx, Missing;
    missing := 0;
    ghost var done: set<(Uuid, int)> := {};
    ghost var all := Tx(other) - Tx(s);
    Sources(other);
    var rest := other.Keys;
    while rest != {}
      invariant rest <= other.Keys && 0 <= missing <= MAX
      invariant missing == |done|
      invariant forall p :: p in done <==> p.0 !in rest && p in all
    {
      var u :| u in rest;
      rest := rest - {u};
      MissingPairs(s, other, u);
      Grows(done, u, Missing(other[u], Get(s, u)));
      done := done + Tagged(u, Missing(other[u], Get(s, u)));
      var full: bool;
      missing, full := MissingOf(missing, other[u], Get(s, u));
      if full {
        NoLarger(done, all);
        return MAX;
      }
    }
    assert done == all;
  }

  lemma Sources(s: GtidSet)
    ensures forall p :: p in Tx(s) ==> p.0 in s
  {
  }

  lemma MissingPairs(s: GtidSet, other: GtidSet, u: Uuid)
    requires u in other
    ensures forall x :: x in Missing(other[u], Get(s, u)) <==> (u, x) in Tx(other) - Tx(s)
    ensures forall p :: p in Tagged(u, Missing(other[u], Get(s, u))) <==> p.0 == u && p in Tx(other) - Tx(s)
  {
    TxIs(s);
    TxIs(other);
    forall x ensures x in Missing(other[u], Get(s, u)) <==> (u, x) in Tx(other) - Tx(s) {}
    forall p ensures p in Tagged(u, Missing(other[u], Get(s, u))) <==> p.0 == u && p in Tx(other) - Tx(s) {
      assert p == (p.0, p.1);
    }
  }

  lemma FreshRange(list: seq<Interval>, k: int)
    requires Normal(list) && 0 <= k < |list|
    ensures forall x :: Mem(list[..k + 1], x) <==> Mem(list[..k], x) || Has(list[k], x)
    ensures forall x :: Has(list[k], x) ==> Mem(list, x) && !Mem(list[..k], x)
    ensures forall x :: Mem(list[..k], x) ==> Mem(list, x)
  {
    assert list[..k + 1] == list[..k] + [list[k]];
    MemAppend(list[..k], [list[k]]);
    MemOne(list[k]);
  }
}
