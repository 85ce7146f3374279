/**
  The MariaDB primary timeline: who authored each stretch of sequence numbers.
  A position names only the author of its last transaction, so the operator
  records every change of primary, judges transactions against that record, and
  drops what nothing needs judging by any more. Instances are identified by their
  ordinal.
*/
module Timeline {
  import opened Wrappers

  datatype Gtid = Gtid(domain: nat, server: nat, seqno: nat)

  /** Per domain the last transaction. */
  type Position = map<nat, (nat, nat)>

  /** From `handoff` on, `server` authors every domain; None is an unreadable handoff. */
  datatype Epoch = Epoch(instance: nat, server: nat, handoff: Option<Position>)

  // ---- A domain's view ----

  function Start(e: Epoch, d: nat): nat {
    if e.handoff.Some? && d in e.handoff.value then e.handoff.value[d].1 else 0
  }

  function HandoffServer(e: Epoch, d: nat): nat {
    if e.handoff.Some? && d in e.handoff.value then e.handoff.value[d].0 else 0
  }

  /** Readable, and each epoch inherited at least what its predecessor had. */
  predicate Chained(t: seq<Epoch>, d: nat) {
    && (forall i :: 0 <= i < |t| ==> t[i].handoff.Some?)
    && (forall i, j :: 0 <= i < j < |t| ==> Start(t[i], d) <= Start(t[j], d))
  }

  /** Checks the chain epoch by epoch, each against the one before. */
  method ReadDomain(t: seq<Epoch>, d: nat) returns (valid: bool)
    ensures valid <==> Chained(t, d)
  {
    for i := 0 to |t|
      invariant Chained(t[..i], d)
      invariant i > 0 ==> forall j :: 0 <= j < i ==> Start(t[j], d) <= Start(t[i - 1], d)
    {
      if t[i].handoff.None? || (i > 0 && Start(t[i], d) < Start(t[i - 1], d)) {
        return false;
      }
      assert forall j :: 0 <= j < i ==> t[..i + 1][j] == t[..i][j];
    }
    assert t[..|t|] == t;
    return true;
  }

  /** The epoch whose range holds a sequence number, or -1 before the timeline. */
  function Containing(t: seq<Epoch>, d: nat, n: nat): (i: int)
    ensures -1 <= i < |t|
    ensures i >= 0 ==> Start(t[i], d) < n
    ensures forall j :: i < j < |t| ==> n <= Start(t[j], d)
  {
    if t == [] then -1
    else if Start(t[|t| - 1], d) < n then |t| - 1
    else Containing(t[..|t| - 1], d, n)
  }

  method LocateEpoch(t: seq<Epoch>, d: nat, n: nat) returns (i: int)
    ensures i == Containing(t, d, n)
  {
    i := -1;
    for k := 0 to |t|
      invariant i == Containing(t[..k], d, n)
    {
      assert t[..k + 1][..k] == t[..k];
      if Start(t[k], d) < n {
        i := k;
      }
    }
    assert t[..|t|] == t;
  }

  /** None: no verdict. */
  function Verdict(t: seq<Epoch>, g: Gtid): Option<bool> {
    if t == [] || g.seqno == 0 || !Chained(t, g.domain) then None else
      var i := Containing(t, g.domain, g.seqno);
      if i < 0 then None
      else if i + 1 < |t| && HandoffServer(t[i + 1], g.domain) != t[i].server then
        if g.seqno == Start(t[i + 1], g.domain) then Some(g.server == HandoffServer(t[i + 1], g.domain)) else None
      else Some(g.server == t[i].server)
  }

  // ---- What a timeline says of history ----

  /** Who authored each transaction of a domain on the surviving timeline. */
  type History = nat -> nat

  /**
    What a chained record says: above its floor, each handed-off transaction is
    by the server it names, and the whole stretch up to it by its epoch's primary
    if that is the same server; the newest stretch is open. A broken record says
    nothing.
  */
  ghost predicate Describes(t: seq<Epoch>, d: nat, author: History) {
    Chained(t, d) ==>
      && (forall i, n: nat :: 0 <= i < |t| && Start(t[i], d) < n && Attributed(t, d, i, n) ==> author(n) == t[i].server)
      && (forall i :: 1 <= i < |t| && Start(t[0], d) < Start(t[i], d) ==>
            author(Start(t[i], d)) == HandoffServer(t[i], d))
  }

  predicate Attributed(t: seq<Epoch>, d: nat, i: int, n: nat)
    requires 0 <= i < |t|
  {
    i + 1 < |t| ==> n <= Start(t[i + 1], d) && HandoffServer(t[i + 1], d) == t[i].server
  }

  /** A verdict is right of every history the record describes. */
  lemma VerdictSound(t: seq<Epoch>, g: Gtid, author: History)
    requires Describes(t, g.domain, author) && Verdict(t, g).Some?
    ensures Verdict(t, g).value <==> author(g.seqno) == g.server
  {
    var i := Containing(t, g.domain, g.seqno);
    if i + 1 < |t| && HandoffServer(t[i + 1], g.domain) != t[i].server {
      assert Start(t[0], g.domain) <= Start(t[i], g.domain);
    } else {
      assert Attributed(t, g.domain, i, g.seqno);
    }
  }

  /** Without a verdict, no clause of the record speaks of the transaction. */
  lemma NotAttributed(t: seq<Epoch>, g: Gtid, j: int)
    requires g.seqno > 0 && Verdict(t, g).None? && Chained(t, g.domain) && 0 <= j < |t|
    ensures Start(t[j], g.domain) < g.seqno ==> !Attributed(t, g.domain, j, g.seqno)
    ensures Start(t[0], g.domain) < Start(t[j], g.domain) ==> Start(t[j], g.domain) != g.seqno
  {
    var i := Containing(t, g.domain, g.seqno);
    assert j < i ==> Start(t[j + 1], g.domain) <= Start(t[i], g.domain);
    assert 0 <= i < j ==> Start(t[i + 1], g.domain) <= Start(t[j], g.domain);
  }

  /** Where there is none, the history could have gone either way. */
  lemma NoVerdictOpen(t: seq<Epoch>, g: Gtid, author: History, other: nat)
    requires Describes(t, g.domain, author) && g.seqno > 0 && Verdict(t, g).None?
    ensures Describes(t, g.domain, n => if n == g.seqno then other else author(n))
  {
    if Chained(t, g.domain) {
      forall j | 0 <= j < |t|
        ensures Start(t[j], g.domain) < g.seqno ==> !Attributed(t, g.domain, j, g.seqno)
        ensures Start(t[0], g.domain) < Start(t[j], g.domain) ==> Start(t[j], g.domain) != g.seqno
      {
        NotAttributed(t, g, j);
      }
      hide Chained, Attributed, Verdict, Start, HandoffServer;
    }
  }

  /** So a transaction has a verdict exactly if every history the record describes agrees on it. */
  lemma VerdictExact(t: seq<Epoch>, g: Gtid, author: History)
    requires Describes(t, g.domain, author) && g.seqno > 0
    ensures Verdict(t, g).Some? <==>
              forall a: History, b: History :: Describes(t, g.domain, a) && Describes(t, g.domain, b) ==>
                (a(g.seqno) == g.server <==> b(g.seqno) == g.server)
  {
    if Verdict(t, g).Some? {
      forall a: History, b: History | Describes(t, g.domain, a) && Describes(t, g.domain, b)
        ensures a(g.seqno) == g.server <==> b(g.seqno) == g.server
      {
        VerdictSound(t, g, a);
        VerdictSound(t, g, b);
      }
    } else {
      NoVerdictOpen(t, g, author, g.server);
      NoVerdictOpen(t, g, author, g.server + 1);
      var a: History := n => if n == g.seqno then g.server else author(n);
      var b: History := n => if n == g.seqno then g.server + 1 else author(n);
      assert a(g.seqno) == g.server && b(g.seqno) != g.server;
    }
  }

  // ---- Where a dead branch begins ----

  /** Whether a stretch may hold transactions of a server, as far as the loop below looks. */
  predicate MayAuthor(t: seq<Epoch>, d: nat, k: int, server: nat)
    requires 0 <= k && k + 1 < |t|
  {
    t[k].server == server || HandoffServer(t[k + 1], d) == server
  }

  /** The epoch after `k` begins between two sequence numbers. */
  ghost predicate HandedOffWithin(t: seq<Epoch>, d: nat, k: int, low: nat, high: nat)
    requires 0 <= k && k + 1 < |t|
  {
    low < Start(t[k + 1], d) < high
  }

  /** For a transaction off the timeline, the sequence number past which its author's are taken for disowned. */
  method DeadAfter(t: seq<Epoch>, g: Gtid) returns (cut: Option<nat>)
    ensures cut.Some? <==> Verdict(t, g) == Some(false)
    ensures cut.Some? ==> Start(t[0], g.domain) <= cut.value < g.seqno
    ensures cut.Some? ==> forall n: nat :: cut.value < n <= g.seqno ==> Verdict(t, g.(seqno := n)) != Some(true)
    ensures cut.Some? && cut.value != Start(t[0], g.domain) ==>
              exists k ::
                0 <= k < |t| - 1 && MayAuthor(t, g.domain, k, g.server) && cut.value == Start(t[k + 1], g.domain)
    // The author was no primary past the cut, and none took over from it there.
    ensures cut.Some? ==> forall k :: 0 <= k < |t| - 1 && HandedOffWithin(t, g.domain, k, cut.value, g.seqno) ==>
              t[k].server != g.server && HandoffServer(t[k + 1], g.domain) != g.server
  {
    if Verdict(t, g) != Some(false) {
      return None;
    }
    var i := LocateEpoch(t, g.domain, g.seqno);
    var k := i - 1;
    while k >= 0
      invariant -1 <= k < i
      invariant forall m :: k < m < i ==> !MayAuthor(t, g.domain, m, g.server)
    {
      if MayAuthor(t, g.domain, k, g.server) {
        NotAbove(t, g, i, k + 1);
        NoneWithin(t, g, i, k + 1);
        return Some(Start(t[k + 1], g.domain));
      }
      k := k - 1;
    }
    NotAbove(t, g, i, 0);
    NoneWithin(t, g, i, 0);
    return Some(Start(t[0], g.domain));
  }

  lemma NoneWithin(t: seq<Epoch>, g: Gtid, i: int, from: int)
    requires Chained(t, g.domain) && i == Containing(t, g.domain, g.seqno) && 0 <= from <= i
    requires forall m :: from <= m < i ==> !MayAuthor(t, g.domain, m, g.server)
    ensures forall k :: 0 <= k < |t| - 1 && HandedOffWithin(t, g.domain, k, Start(t[from], g.domain), g.seqno) ==>
              t[k].server != g.server && HandoffServer(t[k + 1], g.domain) != g.server
  {
    forall k | 0 <= k < |t| - 1 && HandedOffWithin(t, g.domain, k, Start(t[from], g.domain), g.seqno)
      ensures !MayAuthor(t, g.domain, k, g.server)
    {
    }
  }

  lemma NotAbove(t: seq<Epoch>, g: Gtid, i: int, from: int)
    requires Verdict(t, g) == Some(false) && i == Containing(t, g.domain, g.seqno) && 0 <= from <= i
    requires forall m :: from <= m < i ==> !MayAuthor(t, g.domain, m, g.server)
    ensures forall n: nat :: Start(t[from], g.domain) < n <= g.seqno ==> Verdict(t, g.(seqno := n)) != Some(true)
    ensures Start(t[0], g.domain) <= Start(t[from], g.domain) < g.seqno
  {
    forall n: nat | Start(t[from], g.domain) < n <= g.seqno ensures Verdict(t, g.(seqno := n)) != Some(true) {
      NotHere(t, g, i, from, n);
    }
    assert Start(t[from], g.domain) <= Start(t[i], g.domain);
  }

  lemma NotHere(t: seq<Epoch>, g: Gtid, i: int, from: int, n: nat)
    requires Verdict(t, g) == Some(false) && i == Containing(t, g.domain, g.seqno) && 0 <= from <= i
    requires forall m :: from <= m < i ==> !MayAuthor(t, g.domain, m, g.server)
    requires Start(t[from], g.domain) < n <= g.seqno
    ensures Verdict(t, g.(seqno := n)) != Some(true)
  {
    hide Chained, Containing, Start, HandoffServer;
    var j := Containing(t, g.domain, n);
    assert from <= j;
    assert j <= i;
    if j < i {
      assert !MayAuthor(t, g.domain, j, g.server);
    }
  }

  /**
    Taking the author's transactions past the cut for disowned is right of every
    history the record describes exactly if each of them has a verdict. It can go
    wrong where the record lost track: a primary no epoch names may have been that
    author.
  */
  lemma DisowningSoundIff(t: seq<Epoch>, g: Gtid, cut: nat, author: History)
    requires Describes(t, g.domain, author) && cut < g.seqno
    requires forall n: nat :: cut < n <= g.seqno ==> Verdict(t, g.(seqno := n)) != Some(true)
    ensures (forall a: History, n: nat :: Describes(t, g.domain, a) && cut < n <= g.seqno ==> a(n) != g.server) <==>
            (forall n: nat :: cut < n <= g.seqno ==> Verdict(t, g.(seqno := n)).Some?)
  {
    if n: nat :| cut < n <= g.seqno && Verdict(t, g.(seqno := n)).None? {
      NoVerdictOpen(t, g.(seqno := n), author, g.server);
      var a: History := m => if m == n then g.server else author(m);
      assert a(n) == g.server;
    } else {
      forall a: History, n: nat | Describes(t, g.domain, a) && cut < n <= g.seqno ensures a(n) != g.server {
        assert Verdict(t, g.(seqno := n)).Some?;
        VerdictSound(t, g.(seqno := n), a);
      }
    }
  }

  /**
    Server 2 wrote unseen between epochs 0 and 1; so may have server 4, whose
    transaction 5 is disowned with its 15.
  */
  lemma DisowningCanBeWrong()
    ensures exists t: seq<Epoch>, g: Gtid, a: History ::
      Describes(t, g.domain, a) && Verdict(t, g) == Some(false) && Start(t[0], g.domain) < 5 < g.seqno &&
      a(5) == g.server
  {
    var t := [Epoch(1, 1, Some(map[])), Epoch(3, 3, Some(map[0 := (2, 10)]))];
    var a: History := n => if n == 5 then 4 else if n <= 10 then 2 else 3;
    var g := Gtid(0, 4, 15);
    assert Containing(t, 0, 15) == 1;
    assert Describes(t, g.domain, a);
    assert a(5) == g.server;
  }

  // ---- The record of disowned ranges ----

  /** What a server authored in a domain with a sequence number in (after, through]. */
  datatype Range = Range(domain: nat, server: nat, after: nat, through: nat)

  predicate Holds(r: Range, g: Gtid) {
    r.domain == g.domain && r.server == g.server && r.after < g.seqno <= r.through
  }

  predicate Recorded(record: seq<Range>, g: Gtid) {
    exists k :: 0 <= k < |record| && Holds(record[k], g)
  }

  predicate Meets(a: Range, b: Range) {
    a.domain == b.domain && a.server == b.server && a.after <= b.through && b.after <= a.through
  }

  predicate Proper(record: seq<Range>) {
    forall i :: 0 <= i < |record| ==> record[i].after < record[i].through
  }

  predicate Inside(a: Range, b: Range) {
    a.domain == b.domain && a.server == b.server && b.after <= a.after && a.through <= b.through
  }

  /** The first range of the record that meets another one. */
  predicate FirstMet(record: seq<Range>, r: Range, i: int) {
    0 <= i < |record| && Meets(record[i], r) && forall j :: 0 <= j < i ==> !Meets(record[j], r)
  }

  /** What is reported of folding a range in: it is new to the record, or the first range it meets has to be widened. */
  ghost predicate Reports(record: seq<Range>, r: Range) {
    r.after < r.through &&
    ((forall j :: 0 <= j < |record| ==> !Meets(record[j], r)) ||
     exists i :: FirstMet(record, r, i) && !Inside(r, record[i]))
  }

  ghost predicate Grows(record: seq<Range>, r: Range) {
    exists g :: Holds(r, g) && !Recorded(record, g)
  }

  function Wider(a: Range, b: Range): Range {
    a.(after := if b.after < a.after then b.after else a.after,
       through := if b.through > a.through then b.through else a.through)
  }

  /** The record with the first range that meets another one widened to it, or that one added at the end. */
  function Added(record: seq<Range>, r: Range): seq<Range> {
    if record == [] then [r]
    else if Meets(record[0], r) then [Wider(record[0], r)] + record[1..]
    else [record[0]] + Added(record[1..], r)
  }

  function Folded(record: seq<Range>, r: Range): seq<Range> {
    if r.through <= r.after then record else Added(record, r)
  }

  lemma {:induction false} AddedAt(record: seq<Range>, r: Range, i: int)
    requires 0 <= i <= |record| && forall j :: 0 <= j < i ==> !Meets(record[j], r)
    requires i < |record| ==> Meets(record[i], r)
    ensures Added(record, r) == if i < |record| then record[i := Wider(record[i], r)] else record + [r]
  {
    if 0 < i {
      AddedAt(record[1..], r, i - 1);
    }
  }

  /** Folds a range in, widening the first one it meets; the record then holds just that much more. */
  method AddRange(record: seq<Range>, r: Range) returns (next: seq<Range>, grew: bool)
    ensures next == Folded(record, r)
    ensures forall g :: Recorded(next, g) <==> Recorded(record, g) || Holds(r, g)
    ensures grew <==> next != record
    ensures grew <==> Reports(record, r)
    ensures Proper(record) ==> Proper(next)
  {
    if r.through <= r.after {
      return record, false;
    }
    for i := 0 to |record|
      invariant forall j :: 0 <= j < i ==> !Meets(record[j], r)
    {
      var cur := record[i];
      if !Meets(cur, r) {
        continue;
      }
      var wide := cur;
      if r.after < cur.after {
        wide := wide.(after := r.after);
      }
      if r.through > cur.through {
        wide := wide.(through := r.through);
      }
      next, grew := record[i := wide], wide != cur;
      Widened(record, i, r, wide);
      AddedAt(record, r, i);
      assert next[i] == wide && FirstMet(record, r, i);
      return;
    }
    next, grew := record + [r], true;
    AddedAt(record, r, |record|);
    Appended(record, r);
  }

  /** Each range lies inside the first one it meets. */
  ghost predicate Nested(record: seq<Range>) {
    forall i, j :: 0 <= j < |record| && FirstMet(record, record[j], i) ==> Inside(record[j], record[i])
  }

  /** Growth is reported truly of every range exactly if the record is nested. */
  lemma GrowthTrueIff(record: seq<Range>)
    requires Proper(record)
    ensures (forall r :: Reports(record, r) <==> Grows(record, r)) <==> Nested(record)
  {
    if Nested(record) {
      forall r ensures Reports(record, r) <==> Grows(record, r) {
        TrueOfNested(record, r);
      }
    } else {
      var i, j :| 0 <= j < |record| && FirstMet(record, record[j], i) && !Inside(record[j], record[i]);
      assert Reports(record, record[j]);
      forall g ensures Holds(record[j], g) ==> Recorded(record, g) {}
      assert !Grows(record, record[j]);
    }
  }

  lemma {:induction false} MetFirst(record: seq<Range>, r: Range, n: nat) returns (i: int)
    requires n < |record| && Meets(record[n], r)
    ensures FirstMet(record, r, i) && i <= n
  {
    if j: nat :| j < n && Meets(record[j], r) {
      i := MetFirst(record, r, j);
    } else {
      i := n;
    }
  }

  lemma TrueOfNested(record: seq<Range>, r: Range)
    requires Proper(record) && Nested(record)
    ensures Reports(record, r) <==> Grows(record, r)
  {
    if r.through <= r.after {
      return;
    }
    if k: nat :| k < |record| && Meets(record[k], r) {
      var i := MetFirst(record, r, k);
      var c := record[i];
      forall l | FirstMet(record, r, l) ensures l == i {}
      if Inside(r, c) {
        forall g ensures Holds(r, g) ==> Recorded(record, g) {
          assert Holds(r, g) ==> Holds(record[i], g);
        }
      } else {
        var g := Gtid(r.domain, r.server, if c.through < r.through then c.through + 1 else c.after);
        assert Holds(r, g) && !Holds(c, g);
        BeyondFirst(record, r, i, g);
      }
    } else {
      Appended(record, r);
    }
  }

  /** What sticks out of the first range met, next to its edge, no other range of a nested record holds. */
  lemma BeyondFirst(record: seq<Range>, r: Range, i: int, g: Gtid)
    requires Proper(record) && Nested(record) && FirstMet(record, r, i) && r.after < r.through
    requires Holds(r, g) && !Holds(record[i], g) && (g.seqno == record[i].through + 1 || g.seqno == record[i].after)
    ensures !Recorded(record, g)
  {
    if j :| 0 <= j < |record| && Holds(record[j], g) {
      assert Meets(record[j], record[i]) && Meets(record[i], record[j]);
      var k := MetFirst(record, record[j], i);
      assert false;
    }
  }

  /** A range of one server in one domain. */
  function Of(after: nat, through: nat): Range {
    Range(0, 1, after, through)
  }

  /**
    Adding (0, 5], (10, 15] and (4, 11] leaves two ranges that overlap, and adding
    (0, 15] is then reported as growth although all of it is held.
  */
  lemma GrowthReportedFalsely(record: seq<Range>, r: Range)
    requires record == Folded(Folded(Folded([], Of(0, 5)), Of(10, 15)), Of(4, 11)) && r == Of(0, 15)
    ensures Proper(record) && !Nested(record) && Reports(record, r) && !Grows(record, r)
  {
    assert Folded(Folded([], Of(0, 5)), Of(10, 15)) == [Of(0, 5), Of(10, 15)];
    assert record == [Of(0, 11), Of(10, 15)];
    assert FirstMet(record, r, 0) && !Inside(r, record[0]);
    assert FirstMet(record, record[1], 0) && !Inside(record[1], record[0]);
    forall g ensures Holds(r, g) ==> Recorded(record, g) {
      assert Holds(r, g) ==> Holds(record[0], g) || Holds(record[1], g);
    }
  }

  const THREE := [Of(14, 20), Of(0, 2), Of(8, 10)]

  lemma Overlapping()
    ensures THREE == Folded(Folded(Folded([], Of(14, 20)), Of(0, 2)), Of(8, 10))
    ensures Folded(Folded(Folded(THREE, Of(5, 8)), Of(2, 6)), Of(0, 20)) == [Of(0, 20), Of(0, 6), Of(5, 10)]
  {
    assert Folded([], Of(14, 20)) == [Of(14, 20)];
    AddedAt([Of(14, 20)], Of(0, 2), 1);
    AddedAt([Of(14, 20), Of(0, 2)], Of(8, 10), 2);
    AddedAt(THREE, Of(5, 8), 2);
    assert Folded(THREE, Of(5, 8)) == [Of(14, 20), Of(0, 2), Of(5, 10)];
    AddedAt([Of(14, 20), Of(0, 2), Of(5, 10)], Of(2, 6), 1);
    assert Folded([Of(14, 20), Of(0, 2), Of(5, 10)], Of(2, 6)) == [Of(14, 20), Of(0, 6), Of(5, 10)];
    AddedAt([Of(14, 20), Of(0, 6), Of(5, 10)], Of(0, 20), 0);
  }

  /**
    Ranges may overlap without one inside the other and growth still be reported
    truly: here all lie inside the first.
  */
  lemma OverlapAloneIsHarmless(record: seq<Range>)
    requires record == Folded(Folded(Folded(THREE, Of(5, 8)), Of(2, 6)), Of(0, 20))
    ensures THREE == Folded(Folded(Folded([], Of(14, 20)), Of(0, 2)), Of(8, 10))
    ensures |record| == 3 && Meets(record[1], record[2]) && !Inside(record[2], record[1]) && Nested(record)
  {
    Overlapping();
    forall i, j | 0 <= j < |record| && FirstMet(record, record[j], i) ensures Inside(record[j], record[i]) {
      assert Meets(record[0], record[j]);
    }
  }

  lemma Widened(record: seq<Range>, i: int, r: Range, wide: Range)
    requires 0 <= i < |record| && Meets(record[i], r) && r.after < r.through
    requires wide == record[i].(after := if r.after < record[i].after then r.after else record[i].after,
                                through := if r.through > record[i].through then r.through else record[i].through)
    ensures forall g :: Recorded(record[i := wide], g) <==> Recorded(record, g) || Holds(r, g)
  {
    var next, cur := record[i := wide], record[i];
    forall g ensures Recorded(next, g) <==> Recorded(record, g) || Holds(r, g) {
      assert Holds(wide, g) <==> Holds(cur, g) || Holds(r, g);
      if k :| 0 <= k < |record| && Holds(record[k], g) { assert Holds(next[k], g); }
      if Holds(r, g) { assert Holds(next[i], g); }
    }
  }

  lemma Appended(record: seq<Range>, r: Range)
    requires r.after < r.through && forall j :: 0 <= j < |record| ==> !Meets(record[j], r)
    ensures forall g :: Recorded(record + [r], g) <==> Recorded(record, g) || Holds(r, g)
    ensures Grows(record, r)
  {
    var next := record + [r];
    forall g ensures Recorded(next, g) <==> Recorded(record, g) || Holds(r, g) {
      if k :| 0 <= k < |record| && Holds(record[k], g) { assert Holds(next[k], g); }
      if Holds(r, g) { assert Holds(next[|record|], g); }
    }
    var g := Gtid(r.domain, r.server, r.through);
    assert Holds(r, g) && !Recorded(record, g);
  }

  // ---- Pruning ----

  /** Whether a timeline would stop judging a position if `next` became its oldest epoch; unreadable counts as yes. */
  predicate Pins(next: Epoch, position: Option<Position>) {
    position.None? || next.handoff.None? ||
    exists d :: d in position.value && d in next.handoff.value && position.value[d].1 <= next.handoff.value[d].1
  }

  function Pinners(next: Epoch, refs: map<string, Option<Position>>): (r: set<string>)
    ensures r <= refs.Keys
  {
    set name | name in refs && Pins(next, refs[name])
  }

  datatype Pruned = Pruned(timeline: seq<Epoch>, dropped: nat, pinnedBy: set<string>, truncated: bool)

  /** A reference keeps every verdict it had. */
  ghost predicate SameVerdicts(t: seq<Epoch>, u: seq<Epoch>, position: Option<Position>) {
    position.Some? ==> forall d :: d in position.value ==>
      var g := Gtid(d, position.value[d].0, position.value[d].1);
      Verdict(t, g).Some? ==> Verdict(u, g) == Verdict(t, g)
  }

  lemma DropKeeps(t: seq<Epoch>, g: Gtid)
    requires |t| > 1 && t[1].handoff.Some? && Verdict(t, g).Some?
    requires g.domain in t[1].handoff.value ==> t[1].handoff.value[g.domain].1 < g.seqno
    ensures Verdict(t[1..], g) == Verdict(t, g)
  {
    var i, j := Containing(t, g.domain, g.seqno), Containing(t[1..], g.domain, g.seqno);
    assert Start(t[1], g.domain) < g.seqno;
    assert j == i - 1;
  }

  /** All references but some keep their verdicts. */
  ghost predicate Spared(t: seq<Epoch>, u: seq<Epoch>, refs: map<string, Option<Position>>, pinned: set<string>) {
    forall name :: name in refs && name !in pinned ==> SameVerdicts(t, u, refs[name])
  }

  lemma NothingDropped(t: seq<Epoch>, refs: map<string, Option<Position>>)
    ensures Spared(t, t, refs, {})
  {
  }

  lemma OneDropped(t: seq<Epoch>, u: seq<Epoch>, refs: map<string, Option<Position>>, pinned: set<string>)
    requires |u| > 1 && Spared(t, u, refs, pinned)
    ensures Spared(t, u[1..], refs, pinned + Pinners(u[1], refs))
  {
    forall name | name in refs && name !in pinned + Pinners(u[1], refs) ensures SameVerdicts(t, u[1..], refs[name]) {
      DropKeepsAll(t, u, refs[name]);
    }
  }

  /** Drops the oldest epochs as long as no reference needs them. */
  method DropUnpinned(t: seq<Epoch>, refs: map<string, Option<Position>>) returns (dropped: nat)
    ensures dropped <= |t| && (t != [] ==> dropped < |t|) && Spared(t, t[dropped..], refs, {})
    ensures |t| - dropped > 1 ==> Pinners(t[dropped + 1], refs) != {}
  {
    hide Spared, Pinners;
    dropped := 0;
    NothingDropped(t, refs);
    assert t[0..] == t;
    while |t| - dropped > 1 && Pinners(t[dropped + 1], refs) == {}
      invariant dropped <= |t| && (t != [] ==> dropped < |t|)
      invariant Spared(t, t[dropped..], refs, {})
    {
      OneDropped(t, t[dropped..], refs, {});
      assert t[dropped..][1..] == t[dropped + 1..] && t[dropped..][1] == t[dropped + 1];
      assert {} + Pinners(t[dropped + 1], refs) == {};
      dropped := dropped + 1;
    }
  }

  method PruneTimeline(t: seq<Epoch>, refs: map<string, Option<Position>>, ceiling: nat) returns (r: Pruned)
    ensures r.dropped <= |t| && r.timeline == t[r.dropped..]
    ensures t != [] ==> r.timeline != []
    ensures ceiling > 0 ==> |r.timeline| <= ceiling
    ensures !r.truncated ==> r.pinnedBy == {} && (|r.timeline| > 1 ==> Pinners(r.timeline[1], refs) != {})
    ensures r.truncated ==> |r.timeline| == ceiling
    ensures Spared(t, r.timeline, refs, r.pinnedBy)
    ensures r.pinnedBy <= refs.Keys
  {
    hide Spared, Pinners;
    var dropped: nat := DropUnpinned(t, refs);
    var pinned: set<string> := {};
    var truncated := false;
    while ceiling > 0 && |t| - dropped > ceiling
      invariant dropped <= |t| && (t != [] ==> dropped < |t|)
      invariant pinned <= refs.Keys && Spared(t, t[dropped..], refs, pinned)
      invariant !truncated ==> pinned == {} && (|t| - dropped > 1 ==> Pinners(t[dropped + 1], refs) != {})
      invariant truncated ==> |t| - dropped >= ceiling > 0
    {
      OneDropped(t, t[dropped..], refs, pinned);
      assert t[dropped..][1..] == t[dropped + 1..] && t[dropped..][1] == t[dropped + 1];
      pinned, dropped, truncated := pinned + Pinners(t[dropped + 1], refs), dropped + 1, true;
    }
    r := Pruned(t[dropped..], dropped, pinned, truncated);
  }

  lemma DropKeepsAll(t: seq<Epoch>, u: seq<Epoch>, position: Option<Position>)
    requires |u| > 1 && SameVerdicts(t, u, position) && !Pins(u[1], position)
    ensures SameVerdicts(t, u[1..], position)
  {
    forall d | d in position.value
      ensures var g := Gtid(d, position.value[d].0, position.value[d].1);
              Verdict(t, g).Some? ==> Verdict(u[1..], g) == Verdict(t, g)
    {
      var g := Gtid(d, position.value[d].0, position.value[d].1);
      if Verdict(t, g).Some? {
        DropKeeps(u, g);
      }
    }
  }

  // ---- Recording a change of primary ----

  const CEILING := 256

  /** A primary seen writable, with the position it inherited and the one it holds. */
  datatype Primary = Primary(instance: nat, server: nat, slavePos: Option<Position>, executed: Option<Position>)

  predicate NeighboursDiffer(t: seq<Epoch>) {
    forall i :: 0 <= i < |t| - 1 ==> t[i].instance != t[i + 1].instance
  }

  /** The history a pass starts from: the recorded one, or else what the archive carries. */
  function Seeded(recorded: seq<Epoch>, archived: seq<Epoch>): seq<Epoch> {
    if recorded == [] then archived else recorded
  }

  /** A timeline with the epoch of a primary seen writable added, unless its last one is that primary's. */
  function Extended(t: seq<Epoch>, primary: Option<Primary>): seq<Epoch> {
    if primary.None? || (t != [] && t[|t| - 1].instance == primary.value.instance) then t
    else t + [Epoch(primary.value.instance, primary.value.server,
                    if t == [] then primary.value.executed else primary.value.slavePos)]
  }

  /** A record that says nothing false of a history, however much of its beginning is dropped. */
  ghost predicate Truthful(t: seq<Epoch>, d: nat, author: History) {
    forall k :: 0 <= k <= |t| ==> Describes(t[k..], d, author)
  }

  /** For a chained record that is the same as describing the history. */
  lemma DescribingIsTruthful(t: seq<Epoch>, d: nat, author: History)
    requires Chained(t, d) && Describes(t, d, author)
    ensures Truthful(t, d, author)
  {
    forall k | 0 <= k <= |t| ensures Describes(t[k..], d, author) {
      var u := t[k..];
      forall i, n: nat | 0 <= i < |u| && Start(u[i], d) < n && Attributed(u, d, i, n) ensures author(n) == u[i].server {
        assert u[i] == t[i + k] && Attributed(t, d, i + k, n);
      }
      forall i | 1 <= i < |u| && Start(u[0], d) < Start(u[i], d)
        ensures author(Start(u[i], d)) == HandoffServer(u[i], d)
      {
        assert u[i] == t[i + k] && Start(t[0], d) <= Start(t[k], d);
      }
    }
  }

  /** Where a position stands in a domain. */
  function SeqnoAt(position: Option<Position>, d: nat): nat {
    if position.Some? && d in position.value then position.value[d].1 else 0
  }

  /** A history continued by one server past a position. */
  ghost function Continued(author: History, position: Option<Position>, d: nat, server: nat): History {
    (n: nat) => if n <= SeqnoAt(position, d) then author(n) else server
  }

  /** The last transaction of a position is by the server it names. */
  ghost predicate LastByNamed(position: Option<Position>, d: nat, author: History) {
    position.Some? && d in position.value ==> author(position.value[d].1) == position.value[d].0
  }

  lemma ExtensionTruthful(t: seq<Epoch>, e: Epoch, d: nat, author: History)
    requires Truthful(t, d, author) && LastByNamed(e.handoff, d, author)
    ensures Truthful(t + [e], d, Continued(author, e.handoff, d, e.server))
  {
    forall k | 0 <= k <= |t| + 1 ensures Describes((t + [e])[k..], d, Continued(author, e.handoff, d, e.server)) {
      if k <= |t| {
        assert (t + [e])[k..] == t[k..] + [e];
        ExtensionDescribes(t[k..], e, d, author);
      } else {
        assert (t + [e])[k..] == [];
      }
    }
  }

  lemma ExtensionDescribes(t: seq<Epoch>, e: Epoch, d: nat, author: History)
    requires Describes(t, d, author) && LastByNamed(e.handoff, d, author)
    ensures Describes(t + [e], d, Continued(author, e.handoff, d, e.server))
  {
    var u, next := t + [e], Continued(author, e.handoff, d, e.server);
    if Chained(u, d) {
      assert Chained(t, d) by {
        forall i | 0 <= i < |t| ensures u[i] == t[i] {}
      }
      assert u[|t|] == e && Start(e, d) == SeqnoAt(e.handoff, d);
      forall i, n: nat | 0 <= i < |u| && Start(u[i], d) < n && Attributed(u, d, i, n) ensures next(n) == u[i].server {
        if i < |t| {
          assert u[i] == t[i] && Start(u[i + 1], d) <= Start(e, d);
          assert Attributed(t, d, i, n) by {
            assert i + 1 < |t| ==> u[i + 1] == t[i + 1];
          }
        }
      }
      forall i | 1 <= i < |u| && Start(u[0], d) < Start(u[i], d)
        ensures next(Start(u[i], d)) == HandoffServer(u[i], d)
      {
        assert i < |t| ==> u[i] == t[i] && Start(u[i], d) <= Start(e, d);
      }
    }
  }

  lemma SuffixTruthful(t: seq<Epoch>, n: nat, d: nat, author: History)
    requires Truthful(t, d, author) && n <= |t|
    ensures Truthful(t[n..], d, author)
  {
    forall k | 0 <= k <= |t[n..]| ensures Describes(t[n..][k..], d, author) {
      assert t[n..][k..] == t[n + k..];
    }
  }

  /** What is past an epoch's handoff is judged by its server, whatever came before. */
  lemma PastHandoff(t: seq<Epoch>, g: Gtid)
    requires t != [] && Chained(t, g.domain) && Start(t[|t| - 1], g.domain) < g.seqno
    ensures Verdict(t, g) == Some(g.server == t[|t| - 1].server)
  {
  }

  /** The primary is not the one of the last epoch. */
  predicate Changed(t: seq<Epoch>, primary: Option<Primary>) {
    primary.Some? && (t == [] || t[|t| - 1].instance != primary.value.instance)
  }

  /**
    What a pass leaves recorded. A true record stays true, of the history the new
    primary continued past what it inherited; whatever others wrote past that is
    dead. Of what the first primary held when it was first seen, nothing is judged.
  */
  ghost predicate TellsTruth(seed: seq<Epoch>, primary: Option<Primary>, next: seq<Epoch>) {
    && (!Changed(seed, primary) ==>
          forall d, author :: Truthful(seed, d, author) ==> Truthful(next, d, author))
    && (Changed(seed, primary) && seed != [] ==>
          && (forall d, author :: Truthful(seed, d, author) ==>
                LastByNamed(primary.value.slavePos, d, author) ==>
                  Truthful(next, d, Continued(author, primary.value.slavePos, d, primary.value.server)))
          && (forall g: Gtid :: Chained(next, g.domain) && SeqnoAt(primary.value.slavePos, g.domain) < g.seqno ==>
                Verdict(next, g) == Some(g.server == primary.value.server)))
    && (primary.Some? && seed == [] ==>
          && (forall d, author ::
                Truthful(next, d, Continued(author, primary.value.executed, d, primary.value.server)))
          && (forall g: Gtid :: Verdict(next, g).Some? <==>
                primary.value.executed.Some? && SeqnoAt(primary.value.executed, g.domain) < g.seqno))
  }

  lemma NothingTold(primary: Option<Primary>)
    requires primary.None?
    ensures TellsTruth([], primary, [])
  {
  }

  method NextTimeline(recorded: seq<Epoch>, archived: seq<Epoch>, primary: Option<Primary>,
                      refs: map<string, Option<Position>>) returns (next: seq<Epoch>, ghost dropped: nat)
    ensures dropped <= |Extended(Seeded(recorded, archived), primary)|
    ensures next == Extended(Seeded(recorded, archived), primary)[dropped..]
    ensures primary.Some? ==> next != [] && next[|next| - 1].instance == primary.value.instance
    ensures recorded != [] ==> next != []
    ensures |next| <= CEILING
    ensures NeighboursDiffer(Seeded(recorded, archived)) ==> NeighboursDiffer(next)
    ensures TellsTruth(Seeded(recorded, archived), primary, next)
  {
    hide TellsTruth, Pinners, Spared, NeighboursDiffer;
    var t := recorded;
    if t == [] {
      t := archived;
    }
    ghost var seed := t;
    if primary.Some? && (t == [] || t[|t| - 1].instance != primary.value.instance) {
      var p := primary.value;
      var handoff := p.slavePos;
      if t == [] {
        handoff := p.executed;
      }
      t := t + [Epoch(p.instance, p.server, handoff)];
    }
    if t == [] {
      NothingTold(primary);
      StillDiffer(seed, primary, 0);
      return [], 0;
    }
    var pruned := PruneTimeline(t, refs, CEILING);
    next, dropped := pruned.timeline, pruned.dropped;
    RecordedTruth(seed, t, primary, dropped);
    StillDiffer(seed, primary, dropped);
  }

  lemma StillDiffer(seed: seq<Epoch>, primary: Option<Primary>, dropped: nat)
    requires dropped <= |Extended(seed, primary)|
    ensures NeighboursDiffer(seed) ==> NeighboursDiffer(Extended(seed, primary)[dropped..])
  {
  }

  lemma RecordedTruth(seed: seq<Epoch>, t: seq<Epoch>, primary: Option<Primary>, dropped: nat)
    requires t == Extended(seed, primary) && dropped < |t|
    ensures TellsTruth(seed, primary, t[dropped..])
  {
    var next := t[dropped..];
    assert next[|next| - 1] == t[|t| - 1];
    if !Changed(seed, primary) {
      forall d, author | Truthful(seed, d, author) ensures Truthful(next, d, author) {
        SuffixTruthful(t, dropped, d, author);
      }
    } else if seed != [] {
      var e := t[|t| - 1];
      assert t == seed + [e];
      forall d, author | Truthful(seed, d, author) && LastByNamed(e.handoff, d, author)
        ensures Truthful(next, d, Continued(author, e.handoff, d, e.server))
      {
        ExtensionTruthful(seed, e, d, author);
        SuffixTruthful(t, dropped, d, Continued(author, e.handoff, d, e.server));
      }
      forall g: Gtid | Chained(next, g.domain) && SeqnoAt(e.handoff, g.domain) < g.seqno
        ensures Verdict(next, g) == Some(g.server == e.server)
      {
        PastHandoff(next, g);
      }
    } else {
      FirstEpoch(t[0]);
      assert t[0..] == t;
    }
  }

  /** The only epoch of a record judges exactly what is past its handoff, if that is readable. */
  lemma FirstEpoch(e: Epoch)
    ensures forall d, author :: Truthful([e], d, Continued(author, e.handoff, d, e.server))
    ensures forall g: Gtid :: Verdict([e], g).Some? <==> e.handoff.Some? && SeqnoAt(e.handoff, g.domain) < g.seqno
  {
    forall d, author ensures Truthful([e], d, Continued(author, e.handoff, d, e.server)) {
      assert [e][0..] == [e] && [e][1..] == [];
    }
  }

  // ---- Whole runs ----

  function Names(t: seq<Epoch>): (r: seq<nat>)
    ensures |r| == |t|
    ensures forall i :: 0 <= i < |t| ==> r[i] == t[i].instance
  {
    seq(|t|, i requires 0 <= i < |t| => t[i].instance)
  }

  /** A sequence of names with each run of equal ones collapsed into one. */
  function Collapsed(s: seq<nat>): seq<nat> {
    if s == [] then []
    else
      var r := Collapsed(s[..|s| - 1]);
      if r != [] && r[|r| - 1] == s[|s| - 1] then r else r + [s[|s| - 1]]
  }

  predicate SuffixOf<T(==)>(a: seq<T>, b: seq<T>) {
    |a| <= |b| && a == b[|b| - |a|..]
  }

  lemma {:induction false} CollapsedSelf(t: seq<Epoch>)
    requires NeighboursDiffer(t)
    ensures Collapsed(Names(t)) == Names(t)
  {
    if t != [] {
      var init := t[..|t| - 1];
      CollapsedSelf(init);
      assert Names(t)[..|t| - 1] == Names(init);
      assert Names(t) == Names(init) + [t[|t| - 1].instance];
    }
  }

  datatype Pass = Pass(primary: Option<Primary>, archived: seq<Epoch>, refs: map<string, Option<Position>>)

  /** The names a run saw writable, in order. */
  function Seen(passes: seq<Pass>): seq<nat> {
    if passes == [] then []
    else
      var last := passes[|passes| - 1].primary;
      Seen(passes[..|passes| - 1]) + (if last.Some? then [last.value.instance] else [])
  }

  /** The primary last seen writable, or else the seed's. */
  function LastSeen(seed: seq<Epoch>, passes: seq<Pass>): nat
    requires seed != []
  {
    if passes == [] then seed[|seed| - 1].instance
    else
      var last := passes[|passes| - 1].primary;
      if last.Some? then last.value.instance else LastSeen(seed, passes[..|passes| - 1])
  }

  /** A pass that saw another primary than those before it. */
  predicate TookOver(seed: seq<Epoch>, passes: seq<Pass>, k: nat)
    requires seed != [] && k < |passes|
  {
    passes[k].primary.Some? && passes[k].primary.value.instance != LastSeen(seed, passes[..k])
  }

  /** Who authored a domain by then: each new primary everything past what it inherited. */
  ghost function Authored(seed: seq<Epoch>, passes: seq<Pass>, d: nat, author: History, k: nat): History
    requires seed != [] && k <= |passes|
  {
    if k == 0 then author
    else
      var before := Authored(seed, passes, d, author, k - 1);
      if TookOver(seed, passes, k - 1) then
        Continued(before, passes[k - 1].primary.value.slavePos, d, passes[k - 1].primary.value.server)
      else before
  }

  /** What a new primary inherited ends with a transaction of the server it names. */
  ghost predicate AllInherited(seed: seq<Epoch>, passes: seq<Pass>, d: nat, author: History)
    requires seed != []
  {
    forall k :: 0 <= k < |passes| && TookOver(seed, passes, k) ==>
      LastByNamed(passes[k].primary.value.slavePos, d, Authored(seed, passes, d, author, k))
  }

  /**
    From a recorded seed on, the timeline is always a suffix of the seed followed
    by the writable primaries seen, each change noted once; and if the seed was true
    of the history at the time, the timeline is true of the history since.
  */
  method RecordRun(seed: seq<Epoch>, passes: seq<Pass>, ghost d: nat, ghost author: History) returns (t: seq<Epoch>)
    requires seed != [] && NeighboursDiffer(seed)
    ensures t != [] && NeighboursDiffer(t)
    ensures SuffixOf(Names(t), Collapsed(Names(seed) + Seen(passes)))
    ensures Truthful(seed, d, author) && AllInherited(seed, passes, d, author) ==>
              Truthful(t, d, Authored(seed, passes, d, author, |passes|))
  {
    hide NeighboursDiffer, Collapsed, SuffixOf, Names, Extended, Seen, TellsTruth, Truthful, Changed, Verdict;
    t := seed;
    RunStart(seed, passes);
    for k := 0 to |passes|
      invariant t != [] && NeighboursDiffer(t)
      invariant SuffixOf(Names(t), Collapsed(Names(seed) + Seen(passes[..k])))
      invariant t[|t| - 1].instance == LastSeen(seed, passes[..k])
      invariant Truthful(seed, d, author) && AllInherited(seed, passes, d, author) ==>
                  Truthful(t, d, Authored(seed, passes, d, author, k))
    {
      ghost var was := t;
      ghost var dropped;
      t, dropped := NextTimeline(t, passes[k].archived, passes[k].primary, passes[k].refs);
      RunStep(seed, passes, k, was, dropped);
      LastStep(seed, passes, k, was, t, dropped);
      TruthStep(seed, passes, k, was, t, d, author);
    }
    assert passes[..|passes|] == passes;
  }

  lemma LastStep(seed: seq<Epoch>, passes: seq<Pass>, k: nat, t: seq<Epoch>, next: seq<Epoch>, dropped: nat)
    requires seed != [] && k < |passes| && t != [] && t[|t| - 1].instance == LastSeen(seed, passes[..k])
    requires dropped <= |Extended(t, passes[k].primary)| && next != []
    requires next == Extended(t, passes[k].primary)[dropped..]
    ensures next[|next| - 1].instance == LastSeen(seed, passes[..k + 1])
    ensures Changed(t, passes[k].primary) <==> TookOver(seed, passes, k)
  {
    assert passes[..k + 1][..k] == passes[..k];
  }

  lemma TruthStep(seed: seq<Epoch>, passes: seq<Pass>, k: nat, t: seq<Epoch>, next: seq<Epoch>, d: nat, author: History)
    requires seed != [] && k < |passes| && t != [] && TellsTruth(t, passes[k].primary, next)
    requires Changed(t, passes[k].primary) <==> TookOver(seed, passes, k)
    ensures AllInherited(seed, passes, d, author) && Truthful(t, d, Authored(seed, passes, d, author, k)) ==>
              Truthful(next, d, Authored(seed, passes, d, author, k + 1))
  {
    hide Truthful, Verdict, Chained;
  }

  lemma RunStart(seed: seq<Epoch>, passes: seq<Pass>)
    requires NeighboursDiffer(seed)
    ensures SuffixOf(Names(seed), Collapsed(Names(seed) + Seen(passes[..0])))
  {
    CollapsedSelf(seed);
    assert Names(seed) + [] == Names(seed);
  }

  lemma RunStep(seed: seq<Epoch>, passes: seq<Pass>, k: nat, t: seq<Epoch>, dropped: nat)
    requires k < |passes| && t != [] && SuffixOf(Names(t), Collapsed(Names(seed) + Seen(passes[..k])))
    requires dropped <= |Extended(t, passes[k].primary)|
    ensures SuffixOf(Names(Extended(t, passes[k].primary)[dropped..]), Collapsed(Names(seed) + Seen(passes[..k + 1])))
  {
    var p, log, all := passes[k].primary, Names(seed) + Seen(passes[..k]), Names(seed) + Seen(passes[..k + 1]);
    assert passes[..k + 1][..k] == passes[..k];
    if p.Some? {
      assert all == log + [p.value.instance];
      LogGrows(t, p.value, log);
    } else {
      assert all == log;
    }
    SuffixDropped(Extended(t, p), dropped, Collapsed(all));
  }

  lemma LogGrows(t: seq<Epoch>, p: Primary, log: seq<nat>)
    requires t != [] && SuffixOf(Names(t), Collapsed(log))
    ensures SuffixOf(Names(Extended(t, Some(p))), Collapsed(log + [p.instance]))
  {
    var r, s, e := Collapsed(log), log + [p.instance], Extended(t, Some(p));
    assert s[..|s| - 1] == log && s[|s| - 1] == p.instance;
    SameLast(Names(t), r);
    if t[|t| - 1].instance != p.instance {
      assert e[..|t|] == t && |e| == |t| + 1;
      assert Names(e) == Names(t) + [p.instance] by {
        forall i | 0 <= i < |e| ensures Names(e)[i] == (Names(t) + [p.instance])[i] {}
      }
      SuffixGrows(Names(t), r, p.instance);
    }
  }

  lemma SameLast<T>(a: seq<T>, b: seq<T>)
    requires a != [] && SuffixOf(a, b)
    ensures b != [] && a[|a| - 1] == b[|b| - 1]
  {
  }

  lemma SuffixGrows<T>(a: seq<T>, b: seq<T>, x: T)
    requires SuffixOf(a, b)
    ensures SuffixOf(a + [x], b + [x])
  {
  }

  lemma SuffixDropped(t: seq<Epoch>, n: nat, log: seq<nat>)
    requires n <= |t| && SuffixOf(Names(t), log)
    ensures SuffixOf(Names(t[n..]), log)
  {
    assert Names(t[n..]) == Names(t)[n..];
  }
}
