/**
  Expiring base backups and archived binary logs. What a pass may delete, what a
  recovery from a backup it keeps still finds, what is left when a pass breaks off
  in the middle, and whose objects it may touch at all. Time 0 is unknown.
*/
module Retention {
  import opened Wrappers

  datatype Backup = Backup(prefix: nat, started: int, completed: int)
  datatype Binlog = Binlog(server: nat, name: nat, last: int)
  datatype Segment = Segment(server: nat, binlogs: seq<nat>)
  type Index = seq<Segment>

  predicate Distinct(s: seq<Backup>) {
    forall i, j :: 0 <= i < j < |s| ==> s[i].prefix != s[j].prefix
  }

  predicate Sorted(s: seq<Backup>) {
    forall i, j :: 0 <= i < j < |s| ==> s[i].completed <= s[j].completed
  }

  predicate Before(b: Backup, s: seq<Backup>) {
    forall x :: x in s ==> b.completed <= x.completed && b.prefix != x.prefix
  }

  lemma Prepended(b: Backup, s: seq<Backup>)
    requires Before(b, s) && Sorted(s) && Distinct(s)
    ensures Sorted([b] + s) && Distinct([b] + s)
  {
    assert forall k :: 0 <= k < |s| ==> s[k] in s;
  }

  lemma HeadBefore(s: seq<Backup>)
    requires s != [] && Sorted(s) && Distinct(s)
    ensures s == [s[0]] + s[1..] && Before(s[0], s[1..]) && Sorted(s[1..]) && Distinct(s[1..])
  {
  }

  function Insert(b: Backup, s: seq<Backup>): (r: seq<Backup>)
    requires Sorted(s) && Distinct(s) && forall x :: x in s ==> x.prefix != b.prefix
    ensures Sorted(r) && Distinct(r)
    ensures forall x :: x in r <==> x == b || x in s
  {
    if s == [] then [b]
    else
      HeadBefore(s);
      if b.completed <= s[0].completed then
        Prepended(b, s);
        [b] + s
      else
        var t := Insert(b, s[1..]);
        Prepended(s[0], t);
        [s[0]] + t
  }

  /** Sorting by completion; ties in any order. */
  function Sort(s: seq<Backup>): (r: seq<Backup>)
    requires Distinct(s)
    ensures Sorted(r) && Distinct(r)
    ensures forall x :: x in r <==> x in s
  {
    if s == [] then [] else
      assert s == [s[0]] + s[1..];
      Insert(s[0], Sort(s[1..]))
  }

  // ---- Planning ----

  datatype Plan = Plan(backups: set<nat>, binlogs: set<Binlog>, horizon: int)

  /** Completed before the cutoff and not the one kept in any case. */
  predicate Expired(b: Backup, newest: Backup, cutoff: int) {
    b != newest && b.completed < cutoff
  }

  ghost predicate Newest(backups: seq<Backup>, b: Backup) {
    b in backups && forall x :: x in backups ==> x.completed <= b.completed
  }

  /** The horizon is the start of the kept backup that completed first. */
  ghost predicate Horizon(backups: seq<Backup>, newest: Backup, cutoff: int, oldest: Backup) {
    && oldest in backups && !Expired(oldest, newest, cutoff)
    && forall x :: x in backups && !Expired(x, newest, cutoff) ==> oldest.completed <= x.completed
  }

  predicate Uncoverable(l: Binlog, horizon: int) {
    horizon != 0 && l.last != 0 && l.last < horizon
  }

  method PlanRetention(backups: seq<Backup>, binlogs: set<Binlog>, index: Option<Index>, cutoff: int)
    returns (plan: Plan, ghost newest: Backup, ghost oldest: Backup)
    requires Distinct(backups)
    ensures backups == [] ==> plan == Plan({}, {}, 0)
    ensures backups != [] ==> Newest(backups, newest) && Horizon(backups, newest, cutoff, oldest)
    ensures backups != [] ==> forall b :: b in backups ==> (b.prefix in plan.backups <==> Expired(b, newest, cutoff))
    ensures forall p :: p in plan.backups ==> exists b :: b in backups && b.prefix == p
    ensures plan.horizon == if plan.backups == {} then 0 else oldest.started
    // One completed last is kept, and whatever completed at the cutoff or after; no log of unknown end goes.
    ensures backups != [] ==> newest.prefix !in plan.backups
    ensures forall b :: b in backups && b.completed >= cutoff ==> b.prefix !in plan.backups
    ensures forall b :: b in backups && b.completed < cutoff && b.completed < newest.completed ==>
              b.prefix in plan.backups
    ensures forall l :: l in plan.binlogs ==> 0 != l.last < plan.horizon
    ensures forall l :: l in plan.binlogs <==> l in binlogs && index.Some? && Uncoverable(l, plan.horizon)
  {
    plan := Plan({}, {}, 0);
    newest, oldest := Backup(0, 0, 0), Backup(0, 0, 0);
    if backups == [] {
      return;
    }
    var sorted := Sort(backups);
    assert backups[0] in sorted;
    newest := sorted[|sorted| - 1];
    var gone, retained := SplitExpired(sorted, cutoff);
    oldest := retained[0];
    plan := plan.(backups := gone);
    if gone == {} {
      return;
    }
    plan := plan.(horizon := retained[0].started);
    if index.Some? {
      plan := plan.(binlogs := set l | l in binlogs && Uncoverable(l, plan.horizon));
    }
  }

  predicate FirstKept(sorted: seq<Backup>, m: int, newest: Backup, cutoff: int)
    requires 0 <= m < |sorted|
  {
    !Expired(sorted[m], newest, cutoff) && forall k :: 0 <= k < m ==> Expired(sorted[k], newest, cutoff)
  }

  method SplitExpired(sorted: seq<Backup>, cutoff: int) returns (gone: set<nat>, retained: seq<Backup>)
    requires sorted != [] && Sorted(sorted) && Distinct(sorted)
    ensures Newest(sorted, sorted[|sorted| - 1])
    ensures retained != [] && Horizon(sorted, sorted[|sorted| - 1], cutoff, retained[0])
    ensures forall b :: b in sorted ==> (b.prefix in gone <==> Expired(b, sorted[|sorted| - 1], cutoff))
    ensures forall p :: p in gone ==> exists b :: b in sorted && b.prefix == p
  {
    var n := |sorted| - 1;
    ghost var newest := sorted[n];
    gone, retained := {}, [];
    for i := 0 to |sorted|
      invariant forall k :: 0 <= k < i ==> (sorted[k].prefix in gone <==> Expired(sorted[k], newest, cutoff))
      invariant forall p :: p in gone ==> exists k :: 0 <= k < i && sorted[k].prefix == p
      invariant retained == [] ==> forall k :: 0 <= k < i ==> Expired(sorted[k], newest, cutoff)
      invariant retained != [] ==>
                exists m :: 0 <= m < i && retained[0] == sorted[m] && FirstKept(sorted, m, newest, cutoff)
    {
      assert FirstKept(sorted, i, newest, cutoff) <==>
             !Expired(sorted[i], newest, cutoff) && forall k :: 0 <= k < i ==> Expired(sorted[k], newest, cutoff);
      assert forall k :: 0 <= k < i ==> sorted[k].prefix != sorted[i].prefix;
      assert i < n ==> sorted[i].prefix != newest.prefix;
      if i != n && sorted[i].completed < cutoff {
        gone := gone + {sorted[i].prefix};
      } else {
        retained := retained + [sorted[i]];
      }
    }
    assert !Expired(sorted[n], newest, cutoff);
  }

  /** A kept backup whose data is as of an instant needs every log with an event after it, and those of unknown end. */
  ghost predicate Needs(asOf: int, l: Binlog) {
    l.last == 0 || l.last >= asOf
  }

  /**
    Whatever instant between its start and its end a kept backup's data is as of,
    nothing it needs is deleted, exactly if none of the kept ones that completed
    later started before the one that completed first.
  */
  lemma RecoverableIff(backups: seq<Backup>, newest: Backup, cutoff: int, oldest: Backup)
    requires Horizon(backups, newest, cutoff, oldest)
    requires forall b :: b in backups ==> 0 < b.started <= b.completed
    ensures (forall b, asOf, l ::
               Kept(backups, b, newest, cutoff) && b.started <= asOf <= b.completed && Needs(asOf, l) ==>
                 !Uncoverable(l, oldest.started)) <==>
            (forall b :: Kept(backups, b, newest, cutoff) ==> oldest.started <= b.started)
  {
    if b :| Kept(backups, b, newest, cutoff) && b.started < oldest.started {
      assert Needs(b.started, Binlog(0, 0, b.started)) && Uncoverable(Binlog(0, 0, b.started), oldest.started);
    }
  }

  ghost predicate Kept(backups: seq<Backup>, b: Backup, newest: Backup, cutoff: int) {
    b in backups && !Expired(b, newest, cutoff)
  }

  // ---- The index ----

  /** The files an index lists. */
  predicate Lists(index: Index, server: nat, name: nat) {
    exists k :: 0 <= k < |index| && index[k].server == server && name in index[k].binlogs
  }

  predicate Among(deleted: set<Binlog>, server: nat, name: nat) {
    exists l :: l in deleted && l.server == server && l.name == name
  }

  method KeepNames(names: seq<nat>, server: nat, deleted: set<Binlog>) returns (kept: seq<nat>)
    ensures forall n :: n in kept <==> n in names && !Among(deleted, server, n)
  {
    kept := [];
    for k := 0 to |names|
      invariant forall n :: n in kept <==> n in names[..k] && !Among(deleted, server, n)
    {
      if !Among(deleted, server, names[k]) {
        kept := kept + [names[k]];
      }
    }
  }

  predicate Untouched(seg: Segment, deleted: set<Binlog>) {
    forall l :: l in deleted ==> l.server != seg.server
  }

  /** Drops the deleted files, and the segments left with none. */
  method RewriteIndex(index: Index, deleted: set<Binlog>) returns (out: Index)
    ensures Rewritten(index, deleted, out)
    // A segment of a server that lost nothing stays as it is; none is left empty by the deletion.
    ensures forall seg :: seg in index && Untouched(seg, deleted) ==> seg in out
    ensures forall seg :: seg in out ==> seg.binlogs != [] || (seg in index && Untouched(seg, deleted))
  {
    out := [];
    for k := 0 to |index|
      invariant forall seg :: seg in index[..k] && Untouched(seg, deleted) ==> seg in out
      invariant forall seg :: seg in out ==> seg.binlogs != [] || (seg in index && Untouched(seg, deleted))
      invariant forall s, n :: Lists(out, s, n) <==> Lists(index[..k], s, n) && !Among(deleted, s, n)
    {
      var seg := index[k];
      var kept := KeepNames(seg.binlogs, seg.server, deleted);
      ListsStep(index, k);
      if Untouched(seg, deleted) {
        Appended(out, seg);
        out := out + [seg];
      } else if kept != [] {
        Appended(out, Segment(seg.server, kept));
        out := out + [Segment(seg.server, kept)];
      }
    }
    assert index[..|index|] == index;
  }

  lemma Appended(index: Index, seg: Segment)
    ensures forall s, n :: Lists(index + [seg], s, n) <==> Lists(index, s, n) || (seg.server == s && n in seg.binlogs)
  {
    var all := index + [seg];
    forall s, n ensures Lists(all, s, n) <==> Lists(index, s, n) || (seg.server == s && n in seg.binlogs) {
      if k :| 0 <= k < |index| && index[k].server == s && n in index[k].binlogs { assert all[k] == index[k]; }
      if seg.server == s && n in seg.binlogs { assert all[|index|] == seg; }
    }
  }

  lemma ListsStep(index: Index, k: int)
    requires 0 <= k < |index|
    ensures forall s, n ::
              Lists(index[..k + 1], s, n) <==>
              Lists(index[..k], s, n) || (index[k].server == s && n in index[k].binlogs)
  {
    assert index[..k + 1] == index[..k] + [index[k]];
    Appended(index[..k], index[k]);
  }

  // ---- A pass that may break off anywhere ----

  /** An index that took in some logs it did not list. */
  ghost predicate Shipped(was: Index, now: Index, added: set<Binlog>) {
    && (forall l :: l in added ==> !Lists(was, l.server, l.name))
    && forall s, n :: Lists(now, s, n) <==> Lists(was, s, n) || Among(added, s, n)
  }

  lemma ShippedMore(was: Index, mid: Index, now: Index, added: set<Binlog>, more: set<Binlog>)
    requires Shipped(was, mid, added) && Shipped(mid, now, more)
    ensures Shipped(was, now, added + more)
  {
    assert forall s, n :: Among(added + more, s, n) <==> Among(added, s, n) || Among(more, s, n);
  }

  /** No two of some logs have the same key. */
  predicate Keyed(logs: set<Binlog>) {
    forall l, m :: l in logs && m in logs && l.server == m.server && l.name == m.name ==> l == m
  }

  ghost predicate AllIn(index: Index, logs: set<Binlog>) {
    forall l :: l in logs ==> Lists(index, l.server, l.name)
  }

  ghost predicate AllThere(index: Index, files: set<Binlog>) {
    forall s, n :: Lists(index, s, n) ==> Among(files, s, n)
  }

  /** What was or got listed and is left. */
  lemma StillListed(was: Index, now: Index, before: set<Binlog>, added: set<Binlog>, left: set<Binlog>)
    requires AllIn(was, before) && Shipped(was, now, added) && left <= before + added
    ensures AllIn(now, left)
  {
  }

  /** No other log there has the key of a planned one. */
  lemma Apart(was: Index, now: Index, before: set<Binlog>, added: set<Binlog>, planned: set<Binlog>)
    requires Keyed(before) && AllIn(was, before) && Shipped(was, now, added) && planned <= before
    ensures added !! planned
    ensures forall l :: l in before + added && l !in planned ==> !Among(planned, l.server, l.name)
  {
  }

  lemma ShippedThere(was: Index, now: Index, files: set<Binlog>, added: set<Binlog>)
    requires AllThere(was, files) && Shipped(was, now, added)
    ensures AllThere(now, files + added)
  {
    forall s, n | Lists(now, s, n) ensures Among(files + added, s, n) {
      assert Lists(was, s, n) || Among(added, s, n);
    }
  }

  /** Dropping the planned logs from the index leaves it in step with the files. */
  lemma RewrittenAgrees(was: Index, now: Index, out: Index, before: set<Binlog>, added: set<Binlog>,
                        planned: set<Binlog>)
    requires Keyed(before) && AllIn(was, before) && Shipped(was, now, added) && planned <= before
    requires Rewritten(now, planned, out)
    ensures AllIn(out, before + added - planned)
    ensures forall files :: AllThere(was, files) ==> AllThere(out, files + added - planned)
  {
    Apart(was, now, before, added, planned);
    forall files, s, n | AllThere(was, files) && Lists(out, s, n) ensures Among(files + added - planned, s, n) {
      assert Lists(was, s, n) || Among(added, s, n);
    }
  }

  /**
    A log and its manifest are two objects; a listing goes by the manifests. Before
    any call the archiver may ship another log. A call that fails may have taken
    effect.
  */
  class Archive {
    var backups: set<nat>
    var files: set<Binlog>
    var manifests: set<Binlog>
    var index: Option<Index>
    var clock: nat
    const ships: nat -> Option<Binlog>
    /** How many calls failed. */
    ghost var errors: nat

    constructor (backups: set<nat>, files: set<Binlog>, manifests: set<Binlog>, index: Option<Index>,
                 ships: nat -> Option<Binlog>)
      ensures this.backups == backups && this.files == files && this.manifests == manifests && this.index == index
      ensures this.ships == ships && clock == 0 && errors == 0
    {
      this.backups, this.files, this.manifests, this.index := backups, files, manifests, index;
      this.ships, clock, errors := ships, 0, 0;
    }

    ghost predicate Valid()
      reads this`files, this`manifests
    {
      Keyed(files + manifests)
    }

    /** There is an index and every log is in it: recovery can find it. */
    ghost predicate AllListed()
      reads this
    {
      index.Some? && AllIn(index.value, files + manifests)
    }

    /** Every listed file is there: recovery does not look for one in vain. */
    ghost predicate NoneDangling()
      reads this
    {
      index.Some? ==> AllThere(index.value, files)
    }

    /** The archiver ships and indexes a log that is neither there nor listed, or does not. */
    method Ship() returns (ghost added: set<Binlog>)
      requires Valid()
      modifies this
      ensures errors == old(errors)
      ensures Valid() && backups == old(backups) && files == old(files) + added && manifests == old(manifests) + added
      ensures added !! old(files) + old(manifests)
      ensures old(index).Some? ==> index.Some? && Shipped(old(index).value, index.value, added)
    {
      var next := ships(clock);
      clock, added := clock + 1, {};
      if next.None? || Among(files + manifests, next.value.server, next.value.name) {
        return;
      }
      var l := next.value;
      var listed := if index.Some? then index.value else [];
      if Lists(listed, l.server, l.name) {
        return;
      }
      added := {l};
      Appended(listed, Segment(l.server, [l.name]));
      files, manifests, index := files + {l}, manifests + {l}, Some(listed + [Segment(l.server, [l.name])]);
    }

    /** Removes a log, or its manifest. */
    method Remove(l: Binlog, manifest: bool) returns (ok: bool, ghost added: set<Binlog>, ghost done: bool)
      requires Valid()
      modifies this
      ensures errors == old(errors) + (if ok then 0 else 1)
      ensures Valid() && backups == old(backups) && (ok ==> done) && added !! old(files) + old(manifests)
      ensures files == old(files) + added - (if done && !manifest then {l} else {})
      ensures manifests == old(manifests) + added - (if done && manifest then {l} else {})
      ensures old(index).Some? ==> index.Some? && Shipped(old(index).value, index.value, added)
    {
      added := Ship();
      var effect: bool := *;
      var answered: bool := *;
      ok, done := effect && answered, effect;
      errors := if ok then errors else errors + 1;
      if effect && manifest {
        manifests := manifests - {l};
      } else if effect {
        files := files - {l};
      }
    }

    method RemoveBackups(gone: set<nat>) returns (ok: bool, ghost added: set<Binlog>)
      requires Valid()
      modifies this
      ensures errors == old(errors) + (if ok then 0 else 1)
      ensures Valid() && old(backups) - gone <= backups <= old(backups) && (ok ==> backups == old(backups) - gone)
      ensures files == old(files) + added && manifests == old(manifests) + added
      ensures old(index).Some? ==> index.Some? && Shipped(old(index).value, index.value, added)
    {
      var rest := gone;
      ok, added := true, {};
      while rest != {}
        invariant Valid() && errors == old(errors) && rest <= gone && backups == old(backups) - (gone - rest)
        invariant files == old(files) + added && manifests == old(manifests) + added
        invariant old(index).Some? ==> index.Some? && Shipped(old(index).value, index.value, added)
      {
        var p :| p in rest;
        ghost var mid := index;
        ghost var more := Ship();
        if old(index).Some? {
          ShippedMore(old(index).value, mid.value, index.value, added, more);
        }
        added := added + more;
        var effect: bool := *;
        var answered: bool := *;
        if effect {
          backups, rest := backups - {p}, rest - {p};
        }
        if !effect || !answered {
          errors := errors + 1;
          return false, added;
        }
      }
      assert gone - {} == gone;
    }

    /** Removes a log and then its manifest. */
    method RemoveLog(l: Binlog) returns (ok: bool, ghost added: set<Binlog>, ghost halved: bool, ghost gone: bool)
      requires Valid() && l in manifests
      modifies this
      ensures errors == old(errors) + (if ok then 0 else 1)
      ensures Valid() && backups == old(backups) && (gone ==> halved) && (ok ==> gone)
      ensures files == old(files) + added - (if halved then {l} else {})
      ensures manifests == old(manifests) + added - (if gone then {l} else {})
      ensures old(index).Some? ==> index.Some? && Shipped(old(index).value, index.value, added)
    {
      hide Shipped, Keyed;
      gone := false;
      ok, added, halved := Remove(l, false);
      if !ok {
        return;
      }
      ghost var mid := index;
      ghost var more;
      ok, more, gone := Remove(l, true);
      if old(index).Some? {
        ShippedMore(old(index).value, mid.value, index.value, added, more);
      }
      added := added + more;
    }

    method RemoveLogs(planned: set<Binlog>) returns (ok: bool, ghost added: set<Binlog>)
      requires Valid() && planned <= manifests
      modifies this
      ensures errors == old(errors) + (if ok then 0 else 1)
      ensures Valid() && backups == old(backups)
      ensures old(files) - planned <= files <= old(files) + added
      ensures old(manifests) - planned <= manifests <= old(manifests) + added
      ensures old(index).Some? ==> index.Some? && Shipped(old(index).value, index.value, added)
      ensures old(AllListed()) && ok ==>
                files == old(files) + added - planned && manifests == old(manifests) + added - planned
      ensures old(AllListed()) ==> OneHalved(old(files), files, manifests)
    {
      assert old(index).Some? ==> Shipped(old(index).value, index.value, {});
      hide Shipped, Keyed, AllIn, OneHalved;
      ok, added := true, {};
      var logs := planned;
      while logs != {}
        invariant Valid() && errors == old(errors) && logs <= planned && backups == old(backups) && logs <= manifests
        invariant old(files) - planned <= files <= old(files) + added
        invariant old(manifests) - planned <= manifests <= old(manifests) + added
        invariant old(index).Some? ==> index.Some? && Shipped(old(index).value, index.value, added)
        invariant old(AllListed()) ==> files == old(files) + added - (planned - logs)
        invariant old(AllListed()) ==> manifests == old(manifests) + added - (planned - logs)
      {
        var l :| l in logs;
        ghost var mid := index;
        ghost var more, halved, gone;
        ok, more, halved, gone := RemoveLog(l);
        if old(index).Some? {
          ShippedMore(old(index).value, mid.value, index.value, added, more);
        }
        added := added + more;
        if old(AllListed()) {
          Apart(old(index).value, index.value, old(files) + old(manifests), added, planned);
        }
        if !ok {
          if old(AllListed()) {
            Halfway(old(files), files, manifests, planned - logs, l);
          }
          return;
        }
        logs := logs - {l};
      }
      assert planned - {} == planned;
      if old(AllListed()) {
        Unhalved(old(files), files, manifests, planned);
      }
    }

    /** Takes the planned logs out of the index as it is by then; `found` is that index. */
    method DropEntries(planned: set<Binlog>)
      returns (r: Result<()>, ghost added: set<Binlog>, ghost found: Option<Index>)
      requires Valid()
      modifies this
      ensures errors == old(errors) + (if r.Ok? then 0 else 1)
      ensures Valid() && backups == old(backups) && files == old(files) + added && manifests == old(manifests) + added
      ensures old(index).Some? ==> found.Some? && Shipped(old(index).value, found.value, added)
      ensures index == found || (found.Some? && index.Some? && Rewritten(found.value, planned, index.value))
      ensures r.Ok? && found.Some? ==> index.Some? && Rewritten(found.value, planned, index.value)
    {
      hide Shipped, Keyed, Rewritten;
      added := Ship();
      found := index;
      if index.None? {
        return Ok(()), added, found;
      }
      var effect: bool := *;
      var answered: bool := *;
      if effect {
        var next := RewriteIndex(index.value, planned);
        index := Some(next);
      }
      errors := if effect && answered then errors else errors + 1;
      return if effect && answered then Ok(()) else Err, added, found;
    }

    /**
      Removes a plan's backups, then its logs, each before its manifest, then
      its entries in the index as it is by then.
    */
    method Apply(plan: Plan) returns (r: Result<()>, ghost added: set<Binlog>)
      requires Valid() && plan.binlogs <= manifests
      modifies this
      // A pass breaks off at the first call that fails, and only there.
      ensures errors == old(errors) + (if r.Ok? then 0 else 1)
      ensures Valid() && old(backups) - plan.backups <= backups <= old(backups)
      ensures old(files) - plan.binlogs <= files <= old(files) + added
      ensures old(manifests) - plan.binlogs <= manifests <= old(manifests) + added
      ensures r.Ok? ==> backups == old(backups) - plan.backups
      ensures old(AllListed()) ==> AllListed() && OneHalved(old(files), files, manifests)
      ensures old(AllListed()) && r.Ok? ==>
                files == old(files) + added - plan.binlogs && manifests == old(manifests) + added - plan.binlogs
      ensures old(AllListed() && NoneDangling()) && r.Ok? ==> NoneDangling()
    {
      hide Shipped, Keyed, OneHalved, Rewritten, AllIn, AllThere;
      var ok;
      ok, added := RemoveBackups(plan.backups);
      if old(AllListed()) {
        StillListed(old(index).value, index.value, old(files) + old(manifests), added, files + manifests);
        Unhalved(old(files), files, manifests, {});
      }
      if !ok {
        return Err, added;
      }
      ghost var more := {};
      ghost var mid, there := index, files;
      ok, more := RemoveLogs(plan.binlogs);
      if old(index).Some? {
        ShippedMore(old(index).value, mid.value, index.value, added, more);
      }
      added := added + more;
      if old(AllListed()) {
        StillListed(old(index).value, index.value, old(files) + old(manifests), added, files + manifests);
        HalvedBefore(old(files), there, files, manifests);
      }
      if !ok {
        return Err, added;
      }
      if plan.binlogs == {} {
        if old(AllListed() && NoneDangling()) {
          ShippedThere(old(index).value, index.value, old(files), added);
          assert old(files) + added - {} == old(files) + added;
        }
        return Ok(()), added;
      }
      mid := index;
      ghost var found;
      r, more, found := DropEntries(plan.binlogs);
      if old(index).Some? {
        ShippedMore(old(index).value, mid.value, found.value, added, more);
      }
      added := added + more;
      if old(AllListed()) {
        Apart(old(index).value, found.value, old(files) + old(manifests), added, plan.binlogs);
        Unhalved(old(files), files, manifests, plan.binlogs);
        StillListed(old(index).value, found.value, old(files) + old(manifests), added, files + manifests);
        if Rewritten(found.value, plan.binlogs, index.value) {
          RewrittenAgrees(old(index).value, found.value, index.value, old(files) + old(manifests), added, plan.binlogs);
          assert files + manifests == old(files) + old(manifests) + added - plan.binlogs;
        }
      }
    }
  }

  /** At most one log lost its file and kept its manifest. */
  ghost predicate OneHalved(before: set<Binlog>, files: set<Binlog>, manifests: set<Binlog>) {
    forall l, m :: Halved(before, files, manifests, l) && Halved(before, files, manifests, m) ==> l == m
  }

  /** A log that lost its file and kept its manifest. */
  predicate Halved(before: set<Binlog>, files: set<Binlog>, manifests: set<Binlog>, l: Binlog) {
    l in before && l !in files && l in manifests
  }

  /** Of the logs there, only planned ones lost their file, and their manifest too. */
  lemma Unhalved(before: set<Binlog>, files: set<Binlog>, manifests: set<Binlog>, planned: set<Binlog>)
    requires before - planned <= files && manifests !! planned
    ensures OneHalved(before, files, manifests)
  {
  }

  lemma Halfway(before: set<Binlog>, files: set<Binlog>, manifests: set<Binlog>, gone: set<Binlog>, l: Binlog)
    requires before - gone - {l} <= files && manifests !! gone
    ensures OneHalved(before, files, manifests)
  {
  }

  lemma HalvedBefore(before: set<Binlog>, there: set<Binlog>, files: set<Binlog>, manifests: set<Binlog>)
    requires before <= there && OneHalved(there, files, manifests)
    ensures OneHalved(before, files, manifests)
  {
    assert forall l :: Halved(before, files, manifests, l) ==> Halved(there, files, manifests, l);
  }

  /** What an index becomes of deleting some logs. */
  ghost predicate Rewritten(index: Index, deleted: set<Binlog>, out: Index) {
    forall s, n :: Lists(out, s, n) <==> Lists(index, s, n) && !Among(deleted, s, n)
  }

  ghost function Without(index: Index, deleted: set<Binlog>): Index {
    if index == [] then [] else
      Without(index[..|index| - 1], deleted) +
      [Segment(index[|index| - 1].server, NamesWithout(index[|index| - 1].binlogs, index[|index| - 1].server, deleted))]
  }

  ghost function NamesWithout(names: seq<nat>, server: nat, deleted: set<Binlog>): (r: seq<nat>)
    ensures forall n :: n in r <==> n in names && !Among(deleted, server, n)
  {
    if names == [] then [] else
      assert names == [names[0]] + names[1..];
      (if Among(deleted, server, names[0]) then [] else [names[0]]) + NamesWithout(names[1..], server, deleted)
  }

  lemma {:induction false} WithoutRewrites(index: Index, deleted: set<Binlog>)
    ensures Rewritten(index, deleted, Without(index, deleted))
  {
    if index != [] {
      var k := |index| - 1;
      WithoutRewrites(index[..k], deleted);
      ListsStep(index, k);
      assert index[..k + 1] == index;
      Appended(Without(index[..k], deleted),
               Segment(index[k].server, NamesWithout(index[k].binlogs, index[k].server, deleted)));
    }
  }

  /**
    A listed log whose file is gone stays in the index through every later pass
    exactly if its manifest is gone too: a pass plans only what it finds a
    manifest of. So a pass that broke off between the two is made up for, and one
    that deleted both and could not rewrite the index is not.
  */
  lemma StaysIndexedIff(index: Index, manifests: set<Binlog>, server: nat, name: nat)
    requires Lists(index, server, name)
    ensures (forall planned, out ::
               planned <= manifests && Rewritten(index, planned, out) ==> Lists(out, server, name)) <==>
            !Among(manifests, server, name)
  {
    if Among(manifests, server, name) {
      var l :| l in manifests && l.server == server && l.name == name;
      WithoutRewrites(index, {l});
      assert {l} <= manifests && Among({l}, server, name);
      assert !Lists(Without(index, {l}), server, name);
    } else {
      forall planned, out | planned <= manifests && Rewritten(index, planned, out) ensures Lists(out, server, name) {
        assert !Among(planned, server, name);
      }
    }
  }

  // ---- Whose objects ----

  datatype Kind = Base | Logical | File | IndexFile

  /** An object under a cluster's name at some location; the stamp is the UID of the cluster that wrote it. */
  datatype Object = Object(id: nat, kind: Kind, stamp: Option<nat>)

  /** Whether the locations a pass would delete from are proven to be the cluster's. */
  method RetentionOwnership(uid: Option<nat>, same: bool, backups: seq<Object>, logical: seq<Object>,
                            files: nat, index: Option<Object>) returns (owned: bool)
    ensures owned <==>
      && uid.Some?
      && (backups != [] || logical != [] ==>
            Stamped(backups, uid) || Stamped(logical, uid) || (same && index.Some? && index.value.stamp == uid))
      && (files > 0 || index.Some? ==>
            (index.Some? && index.value.stamp == uid) || (same && (Stamped(backups, uid) || Stamped(logical, uid))))
  {
    if uid.None? {
      return false;
    }
    var backupsOwned := false;
    for k := 0 to |backups|
      invariant backupsOwned <==> Stamped(backups[..k], uid)
    {
      assert backups[..k + 1] == backups[..k] + [backups[k]];
      backupsOwned := backupsOwned || backups[k].stamp == uid;
    }
    assert backups[..|backups|] == backups;
    for k := 0 to |logical|
      invariant backupsOwned <==> Stamped(backups, uid) || Stamped(logical[..k], uid)
    {
      assert logical[..k + 1] == logical[..k] + [logical[k]];
      backupsOwned := backupsOwned || logical[k].stamp == uid;
    }
    assert logical[..|logical|] == logical;
    var archiveOwned := index.Some? && index.value.stamp == uid;
    if same {
      backupsOwned := backupsOwned || archiveOwned;
      archiveOwned := backupsOwned;
    }
    if !backupsOwned && |backups| + |logical| > 0 {
      return false;
    }
    return archiveOwned || !(files > 0 || index.Some?);
  }

  predicate Stamped(objects: seq<Object>, uid: Option<nat>) {
    exists o :: o in objects && o.stamp == uid
  }

  type Objects = set<(nat, Object)>

  ghost predicate HasOwn(objects: Objects, location: nat, uid: nat) {
    exists o: Object :: (location, o) in objects && o.stamp == Some(uid)
  }

  /** Which clusters have an object of their own stamp where. */
  ghost function Stamps(objects: Objects): set<(nat, nat)> {
    set p | p in objects && p.1.stamp.Some? :: (p.1.stamp.value, p.0)
  }

  /** Nobody else deletes the object there. */
  ghost predicate Spared(others: (Objects, nat) -> Objects, location: nat, p: Object) {
    forall v: Objects, c: nat :: (location, p) in v ==> (location, p) in others(v, c)
  }

  /** Every one of some stores holds the object there. */
  ghost predicate HeldIn(stores: seq<Objects>, location: nat, p: Object) {
    forall v :: v in stores ==> (location, p) in v
  }

  datatype Listing = Listing(backups: seq<Object>, logical: seq<Object>, files: seq<Object>, index: Option<Object>)

  /** The locations several clusters of one name write to and delete from, before every call. */
  class Stores {
    var objects: Objects
    var clock: nat
    const others: (Objects, nat) -> Objects
    /** Which cluster ever wrote an object of its own stamp where: nobody else stamps it. */
    ghost var wrote: set<(nat, nat)>
    /** How many calls failed. */
    ghost var errors: nat

    constructor (objects: Objects, others: (Objects, nat) -> Objects)
      ensures Valid() && this.objects == objects && this.others == others && clock == 0 && errors == 0
    {
      this.objects, this.others, clock, wrote, errors := objects, others, 0, Stamps(objects), 0;
    }

    ghost predicate Valid()
      reads this`objects, this`wrote
    {
      Stamps(objects) <= wrote
    }

    method Interfere()
      requires Valid()
      modifies this
      ensures Valid() && old(wrote) <= wrote
      ensures objects == others(old(objects), old(clock)) && clock == old(clock) + 1 && errors == old(errors)
    {
      objects, clock := others(objects, clock), clock + 1;
      wrote := wrote + Stamps(objects);
    }

    method List(location: nat, kind: Kind) returns (r: Result<seq<Object>>)
      requires Valid()
      modifies this
      ensures Valid() && old(wrote) <= wrote
      ensures objects == others(old(objects), old(clock)) && clock == old(clock) + 1
      ensures r.Ok? ==> forall o :: o in r.value <==> (location, o) in objects && o.kind == kind
      ensures errors == old(errors) + (if r.Ok? then 0 else 1)
    {
      Interfere();
      var answered: bool := *;
      if !answered {
        errors := errors + 1;
        return Err;
      }
      var rest := set p | p in objects && p.0 == location && p.1.kind == kind;
      ghost var all := rest;
      var found: seq<Object> := [];
      while rest != {}
        invariant rest <= all
        invariant forall o :: o in found <==> (location, o) in all && (location, o) !in rest
      {
        var p :| p in rest;
        rest := rest - {p};
        found := found + [p.1];
      }
      return Ok(found);
    }

    /** The four listings of a pass, and the stores they listed. */
    method ListAll(backupsAt: nat, archiveAt: nat) returns (r: Result<Listing>, ghost listings: seq<Objects>)
      requires Valid()
      modifies this
      ensures Valid() && old(wrote) <= wrote
      ensures r.Err? ==> listings == []
      ensures errors == old(errors) + (if r.Ok? then 0 else 1)
      ensures r.Ok? ==> |listings| == 4 && clock == old(clock) + 4 && objects == listings[3]
      ensures r.Ok? ==> listings[0] == others(old(objects), old(clock)) && Successive(others, listings, old(clock))
      ensures r.Ok? ==> Stamps(listings[0]) + Stamps(listings[1]) + Stamps(listings[3]) <= wrote
      ensures r.Ok? ==> forall o :: o in r.value.backups <==> (backupsAt, o) in listings[0] && o.kind == Base
      ensures r.Ok? ==> forall o :: o in r.value.logical <==> (backupsAt, o) in listings[1] && o.kind == Logical
      ensures r.Ok? ==> forall o :: o in r.value.files <==> (archiveAt, o) in listings[2] && o.kind == File
      ensures r.Ok? && r.value.index.Some? ==> (archiveAt, r.value.index.value) in listings[3]
    {
      listings := [];
      var backups := List(backupsAt, Base);
      if backups.Err? {
        return Err, listings;
      }
      ghost var first := objects;
      var logical := List(backupsAt, Logical);
      if logical.Err? {
        return Err, listings;
      }
      ghost var second := objects;
      var files := List(archiveAt, File);
      if files.Err? {
        return Err, listings;
      }
      ghost var third := objects;
      var index := List(archiveAt, IndexFile);
      if index.Err? {
        return Err, listings;
      }
      listings := [first, second, third, objects];
      var found := if index.value == [] then None else Some(index.value[0]);
      return Ok(Listing(backups.value, logical.value, files.value, found)), listings;
    }

    /** Deletes an object, if it is still there; `was` is what the store held just before. */
    method Delete(location: nat, o: Object) returns (ok: bool, ghost was: Objects)
      requires Valid()
      modifies this
      ensures errors == old(errors) + (if ok then 0 else 1)
      ensures Valid() && old(wrote) <= wrote && was == others(old(objects), old(clock))
      ensures objects == if ok then was - {(location, o)} else was
    {
      Interfere();
      was := objects;
      ok := *;
      errors := if ok then errors else errors + 1;
      if ok {
        objects := objects - {(location, o)};
      }
    }

    /** Deletes, one by one, the listed objects a plan condemned; `stores` are what was there before each. */
    method DeleteAll(location: nat, listed: seq<Object>, doomed: set<Object>)
      returns (ok: bool, asked: seq<(nat, Object)>, ghost stores: seq<Objects>)
      requires Valid()
      modifies this
      ensures Valid() && old(wrote) <= wrote
      ensures forall p :: p in asked ==> p.0 == location && p.1 in listed && p.1 in doomed
      ensures ok ==> forall o :: o in listed && o in doomed ==> (location, o) in asked
      ensures errors == old(errors) + (if ok then 0 else 1)
      ensures |stores| == |asked|
      ensures stores != [] ==> stores[0] == others(old(objects), old(clock))
      ensures stores == [] ==> objects == old(objects) && clock == old(clock)
      ensures forall at: nat, p :: Spared(others, at, p) && p !in doomed && (at, p) in old(objects) ==>
                (at, p) in objects && HeldIn(stores, at, p)
    {
      ok, asked, stores := true, [], [];
      for k := 0 to |listed|
        invariant Valid() && old(wrote) <= wrote && |stores| == |asked| && ok && errors == old(errors)
        invariant forall p :: p in asked ==> p.0 == location && p.1 in listed && p.1 in doomed
        invariant forall o :: o in listed[..k] && o in doomed ==> (location, o) in asked
        invariant stores != [] ==> stores[0] == others(old(objects), old(clock))
        invariant stores == [] ==> objects == old(objects) && clock == old(clock)
        invariant forall at: nat, p :: Spared(others, at, p) && p !in doomed && (at, p) in old(objects) ==>
                  (at, p) in objects && HeldIn(stores, at, p)
      {
        if listed[k] in doomed {
          asked := asked + [(location, listed[k])];
          ghost var was;
          ok, was := Delete(location, listed[k]);
          stores := stores + [was];
          if !ok {
            return;
          }
        }
      }
    }

    /** Base backups go first, then the logs, then the logical backups. */
    method Expire(backupsAt: nat, archiveAt: nat, l: Listing, doomed: set<Object>)
      returns (ok: bool, asked: seq<(nat, Object)>, ghost stores: seq<Objects>)
      requires Valid()
      modifies this
      ensures Valid() && old(wrote) <= wrote
      ensures forall p :: p in asked ==> p.1 in doomed
      ensures forall p :: p in asked ==>
                (p.0 == backupsAt && (p.1 in l.backups || p.1 in l.logical)) || (p.0 == archiveAt && p.1 in l.files)
      ensures ok ==> forall o :: o in doomed && (o in l.backups || o in l.logical) ==> (backupsAt, o) in asked
      ensures ok ==> forall o :: o in doomed && o in l.files ==> (archiveAt, o) in asked
      ensures errors == old(errors) + (if ok then 0 else 1)
      ensures |stores| == |asked|
      ensures stores != [] ==> stores[0] == others(old(objects), old(clock))
      ensures forall at: nat, p :: Spared(others, at, p) && p !in doomed && (at, p) in old(objects) ==>
                HeldIn(stores, at, p)
    {
      hide Stamps, Spared;
      ghost var seen;
      ok, asked, stores := DeleteAll(backupsAt, l.backups, doomed);
      if !ok {
        return;
      }
      var some;
      ok, some, seen := DeleteAll(archiveAt, l.files, doomed);
      asked, stores := asked + some, stores + seen;
      if !ok {
        return;
      }
      ok, some, seen := DeleteAll(backupsAt, l.logical, doomed);
      asked, stores := asked + some, stores + seen;
    }

    /**
      A retention pass. It lists four times and deletes object by object, while
      everyone else writes and deletes. Whatever it wants to delete, it deletes at a
      location only if one of its listings held an object there of its own stamp, so
      one it wrote there itself. What it listed and does not condemn is there at each
      deletion if nobody else deletes it.
    */
    method Retain(uid: nat, backupsAt: nat, archiveAt: nat, doomed: set<Object>)
      returns (r: Result<bool>, asked: seq<(nat, Object)>, ghost listings: seq<Objects>, ghost stores: seq<Objects>)
      requires Valid()
      modifies this
      ensures Valid() && old(wrote) <= wrote
      ensures forall p :: p in asked ==> (p.0 == backupsAt || p.0 == archiveAt) && p.1 in doomed
      ensures forall p :: p in asked ==> (uid, p.0) in wrote && HeldOwn(listings, p.0, uid)
      // A pass breaks off at the first call that fails, and only there.
      ensures errors == old(errors) + (if r.Ok? then 0 else 1)
      ensures r == Ok(false) ==> asked == [] && listings != []
      ensures r == Ok(false) && backupsAt == archiveAt ==> forall o ::
                (backupsAt, o) in listings[0] && o.kind == Base ==> o.stamp != Some(uid)
      ensures r == Ok(true) ==> |listings| == 4 && Condemned(listings, backupsAt, archiveAt, doomed, asked)
      ensures |stores| == |asked|
      ensures listings != [] ==>
                |listings| == 4 && Successive(others, listings, old(clock)) &&
                listings[0] == others(old(objects), old(clock))
      ensures stores != [] ==> listings != [] && stores[0] == others(listings[|listings| - 1], old(clock) + 4)
      ensures forall at: nat, p :: Spared(others, at, p) && p !in doomed && Listed(listings, at, p) ==>
                HeldIn(stores, at, p)
    {
      asked, stores := [], [];
      var all;
      all, listings := ListAll(backupsAt, archiveAt);
      if all.Err? {
        return Err, asked, listings, stores;
      }
      var l := all.value;
      ghost var known := wrote;
      var owned := RetentionOwnership(Some(uid), backupsAt == archiveAt, l.backups, l.logical, |l.files|, l.index);
      if !owned {
        return Ok(false), asked, listings, stores;
      }
      OwnedHeld(listings, uid, backupsAt, archiveAt, l.backups, l.logical, |l.files|, l.index);
      SparedLast(others, listings, old(clock));
      hide Stamps, Successive, Listed, HeldOwn, Spared;
      var ok;
      ok, asked, stores := Expire(backupsAt, archiveAt, l, doomed);
      return if ok then Ok(true) else Err, asked, listings, stores;
    }
  }

  /** Every condemned object was asked to be deleted where it was listed. */
  ghost predicate Condemned(listings: seq<Objects>, backupsAt: nat, archiveAt: nat, doomed: set<Object>,
                            asked: seq<(nat, Object)>)
    requires |listings| == 4
  {
    forall o :: o in doomed ==>
      && ((backupsAt, o) in listings[0] && o.kind == Base ==> (backupsAt, o) in asked)
      && ((backupsAt, o) in listings[1] && o.kind == Logical ==> (backupsAt, o) in asked)
      && ((archiveAt, o) in listings[2] && o.kind == File ==> (archiveAt, o) in asked)
  }

  /** One of the listed stores held an object of that stamp at the location. */
  ghost predicate HeldOwn(listings: seq<Objects>, location: nat, uid: nat) {
    exists k :: 0 <= k < |listings| && HasOwn(listings[k], location, uid)
  }

  ghost predicate Listed(listings: seq<Objects>, location: nat, p: Object) {
    exists k :: 0 <= k < |listings| && (location, p) in listings[k]
  }

  /** Each store is what the others made of the one before. */
  ghost predicate Successive(others: (Objects, nat) -> Objects, stores: seq<Objects>, clock: nat) {
    forall k :: 0 < k < |stores| ==> stores[k] == others(stores[k - 1], clock + k)
  }

  lemma SparedLast(others: (Objects, nat) -> Objects, stores: seq<Objects>, clock: nat)
    requires |stores| == 4 && Successive(others, stores, clock)
    ensures forall at: nat, p :: Spared(others, at, p) && Listed(stores, at, p) ==> (at, p) in stores[3]
  {
    assert stores[1] == others(stores[0], clock + 1) && stores[2] == others(stores[1], clock + 2);
    assert stores[3] == others(stores[2], clock + 3);
  }

  lemma OwnedHeld(listings: seq<Objects>, uid: nat, backupsAt: nat, archiveAt: nat,
                  backups: seq<Object>, logical: seq<Object>, files: nat, index: Option<Object>)
    requires |listings| == 4
    requires forall o :: o in backups ==> (backupsAt, o) in listings[0]
    requires forall o :: o in logical ==> (backupsAt, o) in listings[1]
    requires index.Some? ==> (archiveAt, index.value) in listings[3]
    requires backups != [] || logical != [] ==>
               Stamped(backups, Some(uid)) || Stamped(logical, Some(uid)) ||
               (backupsAt == archiveAt && index.Some? && index.value.stamp == Some(uid))
    requires files > 0 || index.Some? ==>
               (index.Some? && index.value.stamp == Some(uid)) ||
               (backupsAt == archiveAt && (Stamped(backups, Some(uid)) || Stamped(logical, Some(uid))))
    ensures backups != [] || logical != [] ==> HeldOwn(listings, backupsAt, uid)
    ensures backups != [] || logical != [] ==>
              (uid, backupsAt) in Stamps(listings[0]) + Stamps(listings[1]) + Stamps(listings[3])
    ensures files > 0 ==> HeldOwn(listings, archiveAt, uid)
    ensures files > 0 ==> (uid, archiveAt) in Stamps(listings[0]) + Stamps(listings[1]) + Stamps(listings[3])
  {
    if o :| o in backups && o.stamp == Some(uid) {
      assert HasOwn(listings[0], backupsAt, uid);
    }
    if o :| o in logical && o.stamp == Some(uid) {
      assert HasOwn(listings[1], backupsAt, uid);
    }
    if index.Some? && index.value.stamp == Some(uid) {
      assert HasOwn(listings[3], archiveAt, uid);
    }
  }

  // ---- Whether the proof of ownership is still there ----

  predicate Own(o: Object, uid: nat) {
    o.stamp == Some(uid)
  }

  /**
    While a pass deletes the condemned ones of the objects it listed at a
    location, one by one in any order, and others delete theirs: each time it does,
    an object of its own stamp is there.
  */
  ghost predicate AlwaysPresent(listed: set<Object>, doomed: set<Object>, foreign: set<Object>, uid: nat) {
    forall gone: set<Object>, o :: gone <= doomed + foreign && o in doomed && o in listed && o !in gone ==>
      exists p :: p in listed && p !in gone && Own(p, uid)
  }

  /**
    That is so exactly if a listed object of its own is neither condemned nor
    among what others may delete, or all condemned ones are its own.
  */
  lemma AlwaysPresentIff(listed: set<Object>, doomed: set<Object>, foreign: set<Object>, uid: nat)
    ensures AlwaysPresent(listed, doomed, foreign, uid) <==>
              (exists p :: p in listed && p !in doomed && p !in foreign && Own(p, uid)) ||
              (forall o :: o in doomed && o in listed ==> Own(o, uid))
  {
    if exists p :: p in listed && p !in doomed && p !in foreign && Own(p, uid) {
    } else if o :| o in doomed && o in listed && !Own(o, uid) {
      var gone := (doomed + foreign) - {o};
      assert gone <= doomed + foreign && o !in gone;
      forall p ensures !(p in listed && p !in gone && Own(p, uid)) {}
    }
  }

  const MINE := Object(1, Base, Some(1))
  const THEIRS := Object(2, Base, Some(2))

  /** Everyone else rests until the fifth call, then expires an object of the first cluster. */
  function ExpiresMine(v: Objects, clock: nat): Objects {
    if clock == 4 then v - {(0, MINE)} else v
  }

  /**
    The first cluster lists its one backup beside the second's; the second's own
    pass expires it; the first then deletes the second's, with nothing of its own
    left there.
  */
  method ProofLostMeanwhile() returns (r: Result<bool>, ghost stores: seq<Objects>)
    ensures r.Ok? ==> r.value && |stores| > 0 && !HasOwn(stores[0], 0, 1)
    ensures !AlwaysPresent({MINE, THEIRS}, {THEIRS}, {MINE}, 1)
  {
    var s := new Stores({(0, MINE), (0, THEIRS)}, ExpiresMine);
    var asked;
    ghost var listings;
    r, asked, listings, stores := s.Retain(1, 0, 0, {THEIRS});
    assert stores != [] ==> listings[1] == listings[0] && listings[2] == listings[1] && listings[3] == listings[2];
    AlwaysPresentIff({MINE, THEIRS}, {THEIRS}, {MINE}, 1);
    assert !Own(THEIRS, 1);
  }
}
