/**
  Choosing the base backup a recovery starts from: the newest that can reach the
  target.
*/
module Recovery {
  import opened Wrappers
  import opened GtidSets
  import opened DeadBranch

  datatype Entry = Entry(completedAt: int, anchor: Text)

  datatype Time = Unset | Unparseable | At(instant: int)

  datatype Target = Target(time: Time, gtid: Text, immediate: Option<bool>)

  predicate ReplaysBinlogs(target: Option<Target>) {
    target.Some? && target.value.immediate != Some(true)
  }

  /** Listed before: completed later, or at the same instant and listed first. */
  predicate Newer(entries: seq<Entry>, i: nat, j: nat)
    requires i < |entries| && j < |entries|
  {
    entries[i].completedAt > entries[j].completedAt || (entries[i].completedAt == entries[j].completedAt && i < j)
  }

  predicate Order(entries: seq<Entry>, order: seq<nat>, n: nat)
    requires n <= |entries|
  {
    && (forall k :: 0 <= k < |order| ==> order[k] < n)
    && (forall i: nat :: i < n ==> i in order)
    && (forall k, l :: 0 <= k < l < |order| ==> Newer(entries, order[k], order[l]))
  }

  /** A stable sort by completion, newest first. */
  method StableOrder(entries: seq<Entry>) returns (order: seq<nat>)
    ensures Order(entries, order, |entries|)
  {
    order := [];
    for n := 0 to |entries|
      invariant Order(entries, order, n)
    {
      var k := |order|;
      while 0 < k && entries[order[k - 1]].completedAt < entries[n].completedAt
        invariant 0 <= k <= |order|
        invariant forall l :: k <= l < |order| ==> entries[order[l]].completedAt < entries[n].completedAt
      {
        k := k - 1;
      }
      Inserted(entries, order, n, k);
      order := order[..k] + [n] + order[k..];
    }
  }

  lemma Inserted(entries: seq<Entry>, order: seq<nat>, n: nat, k: nat)
    requires n < |entries| && Order(entries, order, n) && k <= |order|
    requires forall l :: k <= l < |order| ==> entries[order[l]].completedAt < entries[n].completedAt
    requires k > 0 ==> entries[order[k - 1]].completedAt >= entries[n].completedAt
    ensures Order(entries, order[..k] + [n] + order[k..], n + 1)
  {
    var next := order[..k] + [n] + order[k..];
    forall i: nat | i < n + 1 ensures i in next {
      if i < n {
        assert i in order;
        var l :| 0 <= l < |order| && order[l] == i;
        assert next[if l < k then l else l + 1] == i;
      } else {
        assert next[k] == i;
      }
    }
    forall l, m | 0 <= l < m < |next| ensures Newer(entries, next[l], next[m]) {
      if m == k {
        assert l == k - 1 || Newer(entries, order[l], order[k - 1]);
      }
    }
  }

  /** The dead branches an index knows of. */
  ghost function Known(index: Index): set<(Uuid, int)> {
    Tx(index.disowned) + Forked(index.forks)
  }

  method AnchorOnDeadBranch(anchor: Text, index: Option<Index>) returns (r: bool)
    ensures r <==> OnDeadBranch(anchor, index)
  {
    if anchor.Blank? || index.None? {
      return false;
    }
    var all := UnionAll(index.value.disowned, index.value.forks);
    if all == map[] {
      assert Tx(all) == {};
      return false;
    }
    if anchor.Garbled? {
      return false;
    }
    r := Intersects(anchor.gtids, all);
  }

  ghost predicate OnDeadBranch(anchor: Text, index: Option<Index>) {
    anchor.Set? && index.Some? && Tx(anchor.gtids) * Known(index.value) != {}
  }

  /** What the documentation asks of a backup that is to reach a target. */
  ghost predicate Reaches(e: Entry, target: Option<Target>, index: Option<Index>) {
    target.None? || (
      && (target.value.time.At? ==> e.completedAt <= target.value.time.instant)
      && (!target.value.gtid.Blank? && !e.anchor.Blank? ==>
          target.value.gtid.Set? && e.anchor.Set? && Tx(e.anchor.gtids) <= Tx(target.value.gtid.gtids))
      && (target.value.gtid.Blank? && ReplaysBinlogs(target) ==> !OnDeadBranch(e.anchor, index)))
  }

  /** One entry against the target: the time first, then a named set, then the dead branches. */
  method Suits(e: Entry, target: Option<Target>, index: Option<Index>) returns (r: bool)
    requires target.Some? ==> !target.value.time.Unparseable?
    ensures r <==> Reaches(e, target, index)
  {
    if target.Some? && target.value.time.At? && e.completedAt > target.value.time.instant {
      return false;
    }
    if target.Some? && !target.value.gtid.Blank? && !e.anchor.Blank? {
      if target.value.gtid.Garbled? || e.anchor.Garbled? {
        return false;
      }
      r := Contains(target.value.gtid.gtids, e.anchor.gtids);
      return;
    }
    if ReplaysBinlogs(target) && target.value.gtid.Blank? {
      var dead := AnchorOnDeadBranch(e.anchor, index);
      return !dead;
    }
    return true;
  }

  method SelectRecoveryBackup(entries: seq<Entry>, target: Option<Target>, index: Option<Index>)
    returns (r: Option<nat>)
    ensures target.Some? && target.value.time.Unparseable? ==> r.None?
    ensures r.Some? ==> r.value < |entries| && Reaches(entries[r.value], target, index)
    ensures r.Some? ==> forall j: nat :: j < |entries| && j != r.value && Reaches(entries[j], target, index) ==>
              Newer(entries, r.value, j)
    ensures r.None? && !(target.Some? && target.value.time.Unparseable?) ==>
              forall j: nat :: j < |entries| ==> !Reaches(entries[j], target, index)
    // It is not past the target's time, holds nothing beyond the target's set, and nothing of a dead branch.
    ensures r.Some? && target.Some? && target.value.time.At? ==>
              entries[r.value].completedAt <= target.value.time.instant
    ensures r.Some? && target.Some? && target.value.gtid.Set? && entries[r.value].anchor.Set? ==>
              Tx(entries[r.value].anchor.gtids) <= Tx(target.value.gtid.gtids)
    ensures r.Some? && target.Some? && target.value.gtid.Blank? && target.value.immediate != Some(true) &&
            entries[r.value].anchor.Set? && index.Some? ==>
              Tx(entries[r.value].anchor.gtids) * (Tx(index.value.disowned) + Forked(index.value.forks)) == {}
    // Without a target, and for an immediate one that names nothing, the newest will do.
    ensures r.None? && entries != [] ==>
              target.Some? &&
              (target.value.immediate != Some(true) || !target.value.time.Unset? || !target.value.gtid.Blank?)
  {
    if entries == [] {
      return None;
    }
    var order := StableOrder(entries);
    if target.Some? && target.value.time.Unparseable? {
      return None;
    }
    for k := 0 to |order|
      invariant forall l :: 0 <= l < k ==> !Reaches(entries[order[l]], target, index)
    {
      var ok := Suits(entries[order[k]], target, index);
      if ok {
        forall j: nat | j < |entries| && j != order[k] && Reaches(entries[j], target, index)
          ensures Newer(entries, order[k], j)
        {
          assert j in order;
        }
        return Some(order[k]);
      }
    }
    forall j: nat | j < |entries| ensures !Reaches(entries[j], target, index) {
      assert j in order;
    }
    assert !Reaches(entries[0], target, index);
    return None;
  }

  /**
    A backup marked with the index present never serves a time or latest recovery
    that reads the index later, as long as no authority executed all that was
    recorded of it.
  */
  lemma MarkedNeverServes(backups: map<string, Backup>, recorded: map<string, set<(Uuid, int)>>,
                          unrecorded: set<string>, name: string, e: Entry, target: Target,
                          early: set<(Uuid, int)>, held: set<(Uuid, int)>,
                          index: Option<Index>, read: Option<Index>)
    requires MarksRecorded(early, index, backups, recorded, unrecorded) && early <= held && IndexLe(held, index, read)
    requires name in backups && name !in unrecorded && Marked(backups[name]) && e.anchor == backups[name].anchor
    requires name in recorded && !(recorded[name] <= held)
    requires target.gtid.Blank? && ReplaysBinlogs(Some(target))
    ensures !Reaches(e, Some(target), read)
  {
    BackedStays(backups[name], recorded[name], early, held, index, read);
    var t :| t in recorded[name] && t !in held;
    assert t in recorded[name] - held;
    BackedRefuses(backups[name], recorded[name], held, read);
    RefusedIsDead(backups[name], read);
  }

  lemma RefusedIsDead(b: Backup, index: Option<Index>)
    requires Refused(b, index)
    ensures OnDeadBranch(b.anchor, index)
  {
    var t :| t in Tx(b.anchor.gtids) * Tx(index.value.disowned);
    assert t in Tx(b.anchor.gtids) * Known(index.value);
  }

  /**
    Whatever writers make of an index, an entry never serves a latest recovery that
    reads it, exactly if the record names something of its anchor that the
    authority has not executed.
  */
  method NeverServesIff(e: Entry, index: Index, executed: GtidSet) returns (narrowed: Index)
    requires e.anchor.Set?
    ensures IndexLe(Tx(executed), Some(index), Some(narrowed))
    ensures (forall read :: IndexLe(Tx(executed), Some(index), read) ==> !Reaches(e, Some(LATEST), read)) <==>
            Tx(e.anchor.gtids) * Tx(index.disowned) - Tx(executed) != {}
  {
    var b := Backup(true, true, false, e.anchor, None, None);
    narrowed := StaysRefusedIff(b, index, executed);
    narrowed := narrowed.(forks := []);
    hide Tx;
    if Tx(e.anchor.gtids) * Tx(index.disowned) - Tx(executed) != {} {
      forall read | IndexLe(Tx(executed), Some(index), read) ensures !Reaches(e, Some(LATEST), read) {
        assert Refused(b, read);
        RefusedIsDead(b, read);
      }
    } else {
      assert Known(narrowed) == Tx(narrowed.disowned);
      assert Reaches(e, Some(LATEST), Some(narrowed));
    }
  }

  const LATEST := Target(Unset, Blank, None)

  /**
    Marked when there was no index: the archiver's first index does not know the
    branch, and the backup serves a latest recovery.
  */
  lemma UnrecordedMarkServes(b: Backup, e: Entry, index: Index)
    requires b == Backup(true, true, false, Set(ONE), Some(0), Some(ONE))
    requires e == Entry(0, b.anchor) && index == Index(map[], [])
    ensures Marked(b) && MarksRecorded({}, Some(index), map["b" := b], map[], {"b"}) && !Refused(b, Some(index))
    ensures Reaches(e, Some(LATEST), Some(index))
  {
    NoTx();
    assert Known(index) == {};
  }

  /**
    A former primary that held the dead transaction is promoted and the archiver
    takes it back from the record; the next failover leaves it dead again. If no
    pass cleared the mark in between, it is not news, nothing is recorded, and the
    backup serves a latest recovery.
  */
  method RetractedMarkServes() returns (narrowed: Index, ghost index: Option<Index>)
    ensures MarksRecorded({}, Some(WITH_ONE), map["b" := DEAD], map["b" := {("u", 1)}], {})
    ensures IndexLe(Tx(ONE), Some(WITH_ONE), Some(narrowed)) && !IndexLe({}, Some(WITH_ONE), Some(narrowed))
    ensures Judged(DEAD, FAILED_OVER) && Disowned(DEAD, FAILED_OVER) == {("u", 1)}
    ensures index == Some(narrowed) && Reaches(Entry(0, DEAD.anchor), Some(LATEST), index)
  {
    hide *;
    var changed;
    narrowed, changed := FoldDisowned(WITH_ONE, [], ONE);
    var backups := map["b" := DEAD];
    DeadAgain(narrowed, backups);
    OtherIsOther();
    var bucket := new Bucket(Some(narrowed), (i, t) => i, true, t => {});
    var catalog := new Catalog(backups);
    var complete;
    ghost var found, added;
    complete, found, added := JudgeBackups(bucket, catalog, FAILED_OVER, true);
    index := bucket.index;
  }

  /** A backup marked for a transaction, an index that records it, and a primary that never executed it. */
  const DEAD := Backup(true, true, false, Set(ONE), Some(0), Some(ONE))
  const WITH_ONE := Index(ONE, [])
  const OTHER: GtidSet := map["v" := [Interval(1, 1)]]
  const FAILED_OVER := Authority(Some(1000), true, OTHER)

  lemma DeadAgain(narrowed: Index, backups: map<string, Backup>)
    requires backups == map["b" := DEAD]
    requires narrowed == Index(narrowed.disowned, []) &&
             Tx(narrowed.disowned) == Tx(WITH_ONE.disowned) + Forked([]) - Tx(ONE)
    ensures MarksRecorded({}, Some(WITH_ONE), backups, map["b" := {("u", 1)}], {})
    ensures !IndexLe({}, Some(WITH_ONE), Some(narrowed)) && NothingNew(backups, FAILED_OVER)
    ensures Judged(DEAD, FAILED_OVER) && Disowned(DEAD, FAILED_OVER) == {("u", 1)}
    ensures Reaches(Entry(0, DEAD.anchor), Some(LATEST), Some(narrowed))
  {
    hide Tx;
    OneAndTwo();
    OtherIsOther();
    assert Tx(narrowed.disowned) == {};
    assert Known(narrowed) == {};
    assert ("u", 1) in Tx(ONE);
  }

  lemma OtherIsOther()
    ensures ("u", 1) !in Tx(OTHER) && WritersKeep((i, t) => i, t => {})
  {
    TxIs(OTHER);
  }
}
