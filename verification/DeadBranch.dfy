/**
  Base backups taken on a branch the surviving timeline left. A judging pass
  folds what such backups hold into the disowned record of the archive index,
  which other writers update at the same time, and only then marks the backups;
  recovery reads the record and refuses them.
*/
module DeadBranch {
  import opened Wrappers
  import opened GtidSets

  /** A GTID set as text: absent, unparseable, or a set. */
  datatype Text = Blank | Garbled | Set(gtids: GtidSet)

  /** The disowned record, and the fork records of the segments that carry one. */
  datatype Index = Index(disowned: GtidSet, forks: seq<GtidSet>)

  /** What every writer of the index keeps: it stays, and its record loses at most what an authority holds again. */
  ghost predicate IndexLe(held: set<(Uuid, int)>, a: Option<Index>, b: Option<Index>) {
    a.Some? ==> b.Some? && Tx(a.value.disowned) - held <= Tx(b.value.disowned)
  }

  ghost predicate Records(index: Option<Index>, dead: set<(Uuid, int)>) {
    index.Some? && dead <= Tx(index.value.disowned)
  }

  // ---- Folding ----

  method FoldDeadBranch(index: Option<Index>, dead: GtidSet) returns (folded: Option<Index>, changed: bool)
    ensures index.None? ==> folded == index && !changed
    ensures index.Some? ==> folded.Some? && FoldedTo(index.value, Tx(dead), folded.value)
    ensures changed <==> folded != index
  {
    if index.None? {
      return index, false;
    }
    var was := index.value.disowned;
    folded, changed := index, false;
    if dead != map[] {
      var union := Union(was, dead);
      var contains := Contains(was, dead);
      changed := !contains;
      folded := Some(index.value.(disowned := union));
      PairsDecide(union, was);
    }
  }

  /** The record after a fold, as a set. */
  ghost predicate FoldedTo(a: Index, dead: set<(Uuid, int)>, b: Index) {
    b == a.(disowned := b.disowned) && Tx(b.disowned) == Tx(a.disowned) + dead
  }

  /** Two dead branches folded in one by one, in whichever order, make the index that both at once make. */
  lemma FoldsCommute(a: Index, x: set<(Uuid, int)>, y: set<(Uuid, int)>, once: Index, twice: Index, both: Index)
    requires FoldedTo(a, x, once) && FoldedTo(once, y, twice)
    requires FoldedTo(a, x + y, both) || FoldedTo(a, y + x, both)
    ensures twice == both
  {
    hide Tx;
    PairsDecide(twice.disowned, both.disowned);
  }

  /** Folding one in again changes nothing. */
  lemma FoldAgain(a: Index, x: set<(Uuid, int)>, once: Index, twice: Index)
    requires FoldedTo(a, x, once) && FoldedTo(once, x, twice)
    ensures twice == once
  {
    hide Tx;
    PairsDecide(twice.disowned, once.disowned);
  }

  /** The dead branches some fork records name. */
  ghost function Forked(forks: seq<GtidSet>): set<(Uuid, int)> {
    if forks == [] then {} else Forked(forks[..|forks| - 1]) + Tx(forks[|forks| - 1])
  }

  method UnionAll(first: GtidSet, forks: seq<GtidSet>) returns (all: GtidSet)
    ensures Tx(all) == Tx(first) + Forked(forks)
  {
    all := first;
    for k := 0 to |forks|
      invariant Tx(all) == Tx(first) + Forked(forks[..k])
    {
      all := Union(all, forks[k]);
      assert forks[..k + 1][..k] == forks[..k];
    }
    assert forks[..|forks|] == forks;
  }

  /**
    The archiver's own fold: it takes its fork records in, and takes back what the
    authority it judges by has executed, as when a former primary that held a dead
    transaction was promoted after all.
  */
  method FoldDisowned(index: Index, forks: seq<GtidSet>, executed: GtidSet) returns (folded: Index, changed: bool)
    ensures folded == Index(folded.disowned, forks)
    ensures Tx(folded.disowned) == Tx(index.disowned) + Forked(forks) - Tx(executed)
    ensures changed <==> folded.disowned != index.disowned
    ensures IndexLe(Tx(executed), Some(index), Some(folded))
  {
    var union := UnionAll(index.disowned, forks);
    if union != map[] {
      union := Difference(union, executed);
    } else {
      NoTx();
    }
    changed := union != index.disowned;
    folded := Index(union, forks);
  }

  // ---- The index under several writers ----

  /** An authority set that grows, and writers that take away at most what it holds by then. */
  ghost predicate WritersKeep(others: (Option<Index>, nat) -> Option<Index>, held: nat -> set<(Uuid, int)>) {
    && (forall t: nat, u: nat :: t <= u ==> held(t) <= held(u))
    && forall i, t: nat :: IndexLe(held(t), i, others(i, t))
  }

  datatype Put = Written | Lost | Failed

  const ATTEMPTS := 8

  /** The object an archive's index is stored in. */
  class Bucket {
    var index: Option<Index>
    var clock: nat
    /** What other writers have made of the index by the operator's next call. */
    const others: (Option<Index>, nat) -> Option<Index>
    /** Whether the endpoint honours a conditional PUT. */
    const conditional: bool
    /** What the primaries that judged the archive had executed by then. */
    ghost const held: nat -> set<(Uuid, int)>
    /** How many calls failed, and how many writes lost to another writer. */
    ghost var errors: nat
    ghost var races: nat

    constructor (index: Option<Index>, others: (Option<Index>, nat) -> Option<Index>, conditional: bool,
                 ghost held: nat -> set<(Uuid, int)>)
      requires WritersKeep(others, held)
      ensures this.index == index && this.others == others && this.conditional == conditional && this.held == held
      ensures Valid() && clock == 0 && errors == 0 && races == 0
    {
      this.index, this.others, this.conditional, this.held := index, others, conditional, held;
      clock, errors, races := 0, 0, 0;
    }

    ghost predicate Valid()
    {
      WritersKeep(others, held)
    }

    ghost function Held(): set<(Uuid, int)>
      reads this`clock
    {
      held(clock)
    }

    method Interfere()
      requires Valid()
      modifies this
      ensures IndexLe(Held(), old(index), index) && old(Held()) <= Held()
      ensures index == others(old(index), old(clock)) && errors == old(errors) && races == old(races)
    {
      index, clock := others(index, clock), clock + 1;
    }

    method Get() returns (r: Result<Option<Index>>)
      requires Valid()
      modifies this
      ensures IndexLe(Held(), old(index), index) && old(Held()) <= Held()
      ensures r.Ok? ==> r.value == index
      ensures errors == old(errors) + (if r.Err? then 1 else 0) && races == old(races)
    {
      Interfere();
      var ok: bool := *;
      errors := if ok then errors else errors + 1;
      return if ok then Ok(index) else Err;
    }

    /**
      A write of `next` by a caller that read `seen`. An ETag names the content it
      was read with, so the condition compares contents. A call that fails may
      still have written.
    */
    method PutIf(next: Index, seen: Option<Index>) returns (r: Put, ghost found: Option<Index>)
      requires Valid()
      modifies this
      ensures IndexLe(Held(), old(index), found) && old(Held()) <= Held()
      ensures index == found || (index == Some(next) && (conditional ==> found == seen))
      ensures r.Written? ==> index == Some(next)
      ensures r.Lost? ==> index == found
      ensures r.Lost? <==> conditional && found != seen
      ensures errors == old(errors) + (if r.Failed? then 1 else 0) && races == old(races) + (if r.Lost? then 1 else 0)
    {
      Interfere();
      found := index;
      if conditional && index != seen {
        races := races + 1;
        return Lost, found;
      }
      var written: bool, answered: bool := *, *;
      if written {
        index := Some(next);
      }
      r := if written && answered then Written else Failed;
      errors := if r.Failed? then errors + 1 else errors;
    }
  }

  /**
    Folds a dead branch into the stored index. A lost race is retried on what the
    winner wrote. With conditional writes the index is in the end as another
    writer left it, or that plus the branch: nobody's record is lost, beyond what
    the archiver takes back of what its authority holds. A reported success means the
    branch is in, unless there was no index to put it in.
  */
  method UpdateArchiveIndex(bucket: Bucket, dead: GtidSet)
    returns (r: Result<()>, ghost absent: bool, ghost found: Option<Index>)
    requires bucket.Valid()
    modifies bucket
    ensures IndexLe(bucket.Held(), old(bucket.index), found) && old(bucket.Held()) <= bucket.Held()
    ensures bucket.conditional && bucket.index != found ==>
              found.Some? && bucket.index.Some? && FoldedTo(found.value, Tx(dead), bucket.index.value)
    ensures r.Ok? ==> absent || Records(bucket.index, Tx(dead))
    ensures absent ==> old(bucket.index).None? && bucket.index == found == None
    // It gives up only on a failed call, or after losing every one of its attempts.
    ensures old(bucket.errors) <= bucket.errors && old(bucket.races) <= bucket.races <= old(bucket.races) + ATTEMPTS
    ensures r.Err? ==> bucket.errors > old(bucket.errors) || bucket.races == old(bucket.races) + ATTEMPTS
    ensures r.Ok? ==> bucket.errors == old(bucket.errors)
  {
    absent := false;
    for n := 0 to ATTEMPTS
      invariant IndexLe(bucket.Held(), old(bucket.index), bucket.index) && old(bucket.Held()) <= bucket.Held()
      invariant bucket.errors == old(bucket.errors) && bucket.races == old(bucket.races) + n
    {
      var got := bucket.Get();
      if got.Err? {
        return Err, false, bucket.index;
      }
      var next, write := FoldDeadBranch(got.value, dead);
      if !write {
        return Ok(()), got.value.None?, bucket.index;
      }
      var put;
      put, found := bucket.PutIf(next.value, got.value);
      if put.Lost? {
        continue;
      }
      return if put.Written? then Ok(()) else Err, false, found;
    }
    found := bucket.index;
    return Err, false, found;
  }

  /**
    Without conditional writes a branch another writer recorded in between is
    lost, exactly if it was not known before.
  */
  lemma UnconditionalWriteLoses(seen: Index, mine: set<(Uuid, int)>, theirs: set<(Uuid, int)>, found: Index,
                                next: Index)
    requires FoldedTo(seen, theirs, found) && FoldedTo(seen, mine, next)
    ensures IndexLe({}, Some(found), Some(next)) <==> theirs <= Tx(seen.disowned) + mine
  {
  }

  // ---- Judging ----

  /** A condition records the dead part it was judged on; it is True if there is one. */
  datatype Backup = Backup(mine: bool, completed: bool, logical: bool, anchor: Text,
                           stoppedAt: Option<int>, condition: Option<GtidSet>)

  predicate Marked(b: Backup) {
    b.condition.Some? && b.condition.value != map[]
  }

  /** What a pass knows of the acting primary: when its set was last read, whether it is writable, and the set. */
  datatype Authority = Authority(readAt: Option<int>, writable: bool, executed: GtidSet)

  predicate Judged(b: Backup, auth: Authority) {
    && b.mine && b.completed && !b.logical && b.anchor.Set? && b.stoppedAt.Some?
    && auth.readAt.Some? && auth.writable && auth.executed != map[]
    && b.stoppedAt.value < auth.readAt.value
  }

  /** A backup whose recorded stop precedes the stamp of the primary's last read. */
  predicate StoppedBefore(b: Backup, readAt: Option<int>) {
    b.stoppedAt.Some? && readAt.Some? && b.stoppedAt.value < readAt.value
  }

  /** What a backup's anchor holds that the primary never executed. */
  ghost function Disowned(b: Backup, auth: Authority): set<(Uuid, int)> {
    if b.anchor.Set? then Tx(b.anchor.gtids) - Tx(auth.executed) else {}
  }

  class Catalog {
    var backups: map<string, Backup>
    /** The backups that turned True in a pass that found no index to record them in. */
    ghost var unrecorded: set<string>
    /** What was put on record of the others when they last turned True. */
    ghost var recorded: map<string, set<(Uuid, int)>>
    /** How many patches were refused. */
    ghost var errors: nat

    constructor (backups: map<string, Backup>)
      ensures this.backups == backups && unrecorded == {} && recorded == map[] && errors == 0
    {
      this.backups, unrecorded, recorded, errors := backups, {}, map[], 0;
    }

    method SetDeadBranchCondition(name: string, seen: Backup, dead: GtidSet) returns (ok: bool)
      modifies this`backups, this`errors
      // Nothing is written where it would change nothing: no condition is set on a backup that never had one to report.
      ensures seen.condition == Some(dead) || (seen.condition.None? && dead == map[]) ==> ok && backups == old(backups)
      ensures errors == old(errors) + (if ok then 0 else 1) && (!ok ==> backups == old(backups))
      ensures backups == old(backups) ||
              (name in old(backups) && backups == old(backups)[name := old(backups)[name].(condition := Some(dead))])
      ensures ok && name in old(backups) && old(backups)[name] == seen ==> Says(backups[name], dead)
    {
      if (seen.condition.None? && dead == map[]) || seen.condition == Some(dead) {
        return true;
      }
      ok := *;
      errors := if ok then errors else errors + 1;
      if ok && name in backups {
        backups := backups[name := backups[name].(condition := Some(dead))];
      }
    }
  }

  /** Recovery refuses a backup for a record that names something its anchor holds. */
  ghost predicate Refused(b: Backup, index: Option<Index>) {
    b.anchor.Set? && index.Some? && Tx(b.anchor.gtids) * Tx(index.value.disowned) != {}
  }

  /** Part of a backup's anchor was put on record, and what of it no authority has executed since is there still. */
  ghost predicate Backed(b: Backup, dead: set<(Uuid, int)>, held: set<(Uuid, int)>, index: Option<Index>) {
    && b.anchor.Set? && dead != {} && dead <= Tx(b.anchor.gtids)
    && index.Some? && dead - held <= Tx(index.value.disowned)
  }

  ghost predicate MarksRecorded(held: set<(Uuid, int)>, index: Option<Index>, backups: map<string, Backup>,
                                recorded: map<string, set<(Uuid, int)>>, unrecorded: set<string>) {
    forall n :: n in backups && Marked(backups[n]) && n !in unrecorded ==>
      n in recorded && Backed(backups[n], recorded[n], held, index)
  }

  lemma BackedStays(b: Backup, dead: set<(Uuid, int)>, early: set<(Uuid, int)>, held: set<(Uuid, int)>,
                    was: Option<Index>, index: Option<Index>)
    requires Backed(b, dead, early, was) && early <= held && IndexLe(held, was, index)
    ensures Backed(b, dead, held, index)
  {
  }

  /** A backup is refused as long as something of what was recorded of it was never executed. */
  lemma BackedRefuses(b: Backup, dead: set<(Uuid, int)>, held: set<(Uuid, int)>, index: Option<Index>)
    requires Backed(b, dead, held, index) && dead - held != {}
    ensures Refused(b, index)
  {
    var t :| t in dead - held;
    assert t in Tx(b.anchor.gtids) * Tx(index.value.disowned);
  }

  /**
    Whatever writers make of an index, a backup stays refused exactly if the record
    names something of its anchor that the authority has not executed. `narrowed`
    is what the archiver makes of it.
  */
  method StaysRefusedIff(b: Backup, index: Index, executed: GtidSet) returns (narrowed: Index)
    requires b.anchor.Set?
    ensures IndexLe(Tx(executed), Some(index), Some(narrowed))
    ensures Refused(b, Some(narrowed)) <==> Tx(b.anchor.gtids) * Tx(index.disowned) - Tx(executed) != {}
    ensures (forall later :: IndexLe(Tx(executed), Some(index), later) ==> Refused(b, later)) <==>
            Tx(b.anchor.gtids) * Tx(index.disowned) - Tx(executed) != {}
  {
    var changed;
    narrowed, changed := FoldDisowned(index, [], executed);
    hide Tx;
    if t :| t in Tx(b.anchor.gtids) * Tx(index.disowned) - Tx(executed) {
      forall later | IndexLe(Tx(executed), Some(index), later) ensures Refused(b, later) {
        assert t in Tx(b.anchor.gtids) * Tx(later.value.disowned);
      }
    } else {
      assert Forked([]) == {};
      assert Tx(b.anchor.gtids) * Tx(narrowed.disowned) <= Tx(b.anchor.gtids) * Tx(index.disowned) - Tx(executed);
    }
  }

  ghost predicate NoneOf(a: set<(Uuid, int)>, b: set<(Uuid, int)>) {
    forall t :: t in a ==> t !in b
  }

  /** A verdict is what the anchor holds beyond the primary, and is collected if it is new. */
  ghost predicate Verdict(b: Backup, auth: Authority, dead: set<(Uuid, int)>, union: set<(Uuid, int)>) {
    Judged(b, auth) && dead == Disowned(b, auth) && (!Marked(b) ==> dead <= union)
  }

  /** The verdicts of a pass, and the union of those that are new. */
  ghost predicate Verdicts(backups: map<string, Backup>, auth: Authority, verdicts: map<string, GtidSet>,
                           union: GtidSet) {
    && (forall n :: n in verdicts ==> n in backups && Verdict(backups[n], auth, Tx(verdicts[n]), Tx(union)))
    && NoneOf(Tx(union), Tx(auth.executed))
  }

  /** Judges every listed backup; a garbled anchor is skipped. */
  method JudgeAnchors(backups: map<string, Backup>, auth: Authority)
    returns (verdicts: map<string, GtidSet>, union: GtidSet, newly: set<string>)
    ensures Verdicts(backups, auth, verdicts, union)
    ensures forall n :: n in verdicts <==> n in backups && Judged(backups[n], auth)
    ensures forall n :: n in verdicts ==> StoppedBefore(backups[n], auth.readAt)
    ensures forall n :: n in newly <==> n in verdicts && verdicts[n] != map[] && !Marked(backups[n])
  {
    hide Tx, Disowned, Verdicts;
    verdicts, union, newly := map[], map[], {};
    NoVerdicts(backups, auth);
    if !(auth.readAt.Some? && auth.writable && auth.executed != map[]) {
      return;
    }
    var rest := backups.Keys;
    while rest != {}
      invariant rest <= backups.Keys
      invariant Verdicts(backups, auth, verdicts, union)
      invariant forall n :: n in verdicts <==> n in backups && n !in rest && Judged(backups[n], auth)
      invariant forall n :: n in newly <==> n in verdicts && verdicts[n] != map[] && !Marked(backups[n])
    {
      var name :| name in rest;
      rest := rest - {name};
      var b := backups[name];
      if !(b.mine && b.completed && !b.logical && b.anchor.Set? && b.stoppedAt.Some?) ||
         b.stoppedAt.value >= auth.readAt.value {
        continue;
      }
      var dead := Difference(b.anchor.gtids, auth.executed);
      ghost var sofar, before := verdicts, union;
      verdicts := verdicts[name := dead];
      if dead != map[] && !Marked(b) {
        union := Union(union, dead);
        newly := newly + {name};
      }
      NextVerdict(backups, auth, sofar, before, name, dead, union);
    }
  }

  lemma NoVerdicts(backups: map<string, Backup>, auth: Authority)
    ensures Verdicts(backups, auth, map[], map[])
  {
  }

  lemma NoTx()
    ensures Tx(map[]) == {}
  {
  }

  lemma NextVerdict(backups: map<string, Backup>, auth: Authority, verdicts: map<string, GtidSet>, union: GtidSet,
                    name: string, dead: GtidSet, grown: GtidSet)
    requires Verdicts(backups, auth, verdicts, union)
    requires name in backups && Judged(backups[name], auth) &&
             Tx(dead) == Tx(backups[name].anchor.gtids) - Tx(auth.executed)
    requires if dead != map[] && !Marked(backups[name]) then Tx(grown) == Tx(union) + Tx(dead) else grown == union
    ensures Verdicts(backups, auth, verdicts[name := dead], grown)
  {
    hide Tx;
    NoTx();
    var all, before, after := verdicts[name := dead], Tx(union), Tx(grown);
    assert Verdict(backups[name], auth, Tx(dead), after) && before <= after;
    hide Disowned, Judged;
    forall n | n in all ensures n in backups && Verdict(backups[n], auth, Tx(all[n]), after) {
      assert n != name ==> Verdict(backups[n], auth, Tx(verdicts[n]), before);
    }
  }

  /** A pass touches a backup's condition only, and sets it to exactly what it judged. */
  ghost predicate OnlyMarked(a: Backup, b: Backup, auth: Authority) {
    b == a || (Judged(a, auth) && b.condition.Some? && b == a.(condition := b.condition) &&
               Tx(b.condition.value) == Disowned(a, auth))
  }

  predicate Says(b: Backup, dead: GtidSet) {
    b.condition == Some(dead) || (b.condition.None? && dead == map[])
  }

  predicate Patched(a: Backup, b: Backup, n: string, verdicts: map<string, GtidSet>) {
    b == a || (n in verdicts && b == a.(condition := Some(verdicts[n])))
  }

  method PatchAll(catalog: Catalog, verdicts: map<string, GtidSet>) returns (ok: bool)
    requires verdicts.Keys <= catalog.backups.Keys
    modifies catalog`backups, catalog`errors
    ensures old(catalog.errors) <= catalog.errors && (ok <==> catalog.errors == old(catalog.errors))
    ensures catalog.backups.Keys == old(catalog.backups).Keys
    ensures forall n :: n in catalog.backups ==> Patched(old(catalog.backups)[n], catalog.backups[n], n, verdicts)
    ensures ok ==> forall n :: n in verdicts ==> Says(catalog.backups[n], verdicts[n])
  {
    ok := true;
    var listing := catalog.backups;
    var rest := verdicts.Keys;
    while rest != {}
      invariant rest <= verdicts.Keys
      invariant old(catalog.errors) <= catalog.errors && (ok <==> catalog.errors == old(catalog.errors))
      invariant catalog.backups.Keys == listing.Keys
      invariant forall n :: n in catalog.backups ==> Patched(listing[n], catalog.backups[n], n, verdicts)
      invariant forall n :: n in rest ==> catalog.backups[n] == listing[n]
      invariant ok ==> forall n :: n in verdicts && n !in rest ==> Says(catalog.backups[n], verdicts[n])
    {
      var name :| name in rest;
      rest := rest - {name};
      var patched := catalog.SetDeadBranchCondition(name, listing[name], verdicts[name]);
      ok := ok && patched;
    }
  }

  /** A backup that turned True with its dead part on record is backed by it. */
  lemma TurnedBacked(a: Backup, b: Backup, auth: Authority, held: set<(Uuid, int)>, index: Option<Index>)
    requires !Marked(a) && Marked(b) && OnlyMarked(a, b, auth)
    requires Records(index, Disowned(a, auth))
    ensures Backed(b, Disowned(a, auth), held, index)
  {
    PairsDecide(b.condition.value, map[]);
    NoTx();
  }

  /**
    One judging pass. Whatever fails on the way, a backup turns True only for
    holding something the primary never executed, and, if there is an index, with
    all of that in its record; nothing the primary executed is put there. If
    nothing fails, exactly the judged backups that hold such things end up True.
  */
  method JudgeBackups(bucket: Bucket, catalog: Catalog, auth: Authority, listed: bool)
    returns (complete: bool, ghost found: Option<Index>, ghost added: set<(Uuid, int)>)
    requires bucket.Valid()
    modifies bucket, catalog
    ensures IndexLe(bucket.Held(), old(bucket.index), found) && old(bucket.Held()) <= bucket.Held()
    ensures NoneOf(added, Tx(auth.executed))
    ensures !listed ==> !complete && catalog.backups == old(catalog.backups) && bucket.index == old(bucket.index)
    // A pass is complete unless the listing, a call or a patch failed, or it lost every attempt at the index.
    ensures listed && !complete ==> bucket.errors > old(bucket.errors) || catalog.errors > old(catalog.errors) ||
                                    bucket.races == old(bucket.races) + ATTEMPTS
    ensures bucket.conditional && bucket.index != found ==>
              found.Some? && bucket.index.Some? && FoldedTo(found.value, added, bucket.index.value)
    ensures catalog.unrecorded != old(catalog.unrecorded) ==> bucket.index == None
    ensures old(catalog.unrecorded) <= catalog.unrecorded
    ensures catalog.backups.Keys == old(catalog.backups).Keys
    ensures forall n :: n in catalog.backups ==> OnlyMarked(old(catalog.backups)[n], catalog.backups[n], auth)
    // Nothing is judged but completed physical backups of this cluster that stopped before a writable primary was read.
    ensures forall n :: n in catalog.backups && catalog.backups[n] != old(catalog.backups)[n] ==>
              var b := catalog.backups[n];
              b.mine && b.completed && !b.logical && b.anchor.Set? && StoppedBefore(b, auth.readAt) && auth.writable
    ensures forall n :: n in catalog.backups && !Marked(old(catalog.backups)[n]) && Marked(catalog.backups[n]) ==>
              n in catalog.unrecorded ||
              (Records(bucket.index, Disowned(catalog.backups[n], auth)) &&
               n in catalog.recorded && catalog.recorded[n] == Disowned(catalog.backups[n], auth))
    ensures forall n :: n in old(catalog.backups) && Marked(old(catalog.backups)[n]) && n in old(catalog.recorded) ==>
              n in catalog.recorded && catalog.recorded[n] == old(catalog.recorded)[n]
    ensures NothingNew(old(catalog.backups), auth) ==> bucket.index == old(bucket.index)
    ensures complete && auth.writable && auth.executed != map[] ==> forall n :: n in catalog.backups ==>
              var b := catalog.backups[n];
              b.mine && b.completed && !b.logical && b.anchor.Set? && StoppedBefore(b, auth.readAt) ==>
                (Marked(b) <==> Tx(b.anchor.gtids) - Tx(auth.executed) != {})
  {
    hide Tx, Disowned, Verdicts, OnlyMarked, Patched, Marked, NoneOf, Noted, NothingNew, Judged, WritersKeep;
    complete, found, added := false, bucket.index, {};
    NothingJudged(catalog.backups, auth);
    if !listed {
      return;
    }
    var listing := catalog.backups;
    var verdicts, union, newly := JudgeAnchors(listing, auth);
    NothingExecuted(listing, auth, verdicts, union);
    NewlyDead(listing, auth, verdicts, union, newly);
    if newly != {} {
      var recorded;
      ghost var absent;
      recorded, absent, found := UpdateArchiveIndex(bucket, union);
      added := Tx(union);
      if recorded.Err? {
        return;
      }
      if absent {
        catalog.unrecorded := catalog.unrecorded + newly;
      } else {
        NotedHolds(catalog.recorded, newly, listing, auth);
        catalog.recorded := Noted(catalog.recorded, newly, listing, auth);
      }
    }
    complete := PatchAll(catalog, verdicts);
    PassOutcome(listing, catalog.backups, auth, verdicts, union, newly, bucket.index, catalog.unrecorded,
                catalog.recorded);
    OnlyEligible(listing, catalog.backups, auth);
    if complete {
      CompleteOutcome(listing, catalog.backups, auth, verdicts, union);
      AllDecided(catalog.backups, auth);
    }
  }

  lemma OnlyEligible(before: map<string, Backup>, after: map<string, Backup>, auth: Authority)
    requires before.Keys == after.Keys && forall n :: n in after ==> OnlyMarked(before[n], after[n], auth)
    ensures forall n :: n in after && after[n] != before[n] ==>
              var b := after[n];
              b.mine && b.completed && !b.logical && b.anchor.Set? && StoppedBefore(b, auth.readAt) && auth.writable
  {
  }

  lemma AllDecided(backups: map<string, Backup>, auth: Authority)
    requires forall n :: n in backups && Judged(backups[n], auth) ==>
               (Marked(backups[n]) <==> Disowned(backups[n], auth) != {})
    ensures auth.writable && auth.executed != map[] ==> forall n :: n in backups ==>
              var b := backups[n];
              b.mine && b.completed && !b.logical && b.anchor.Set? && StoppedBefore(b, auth.readAt) ==>
                (Marked(b) <==> Tx(b.anchor.gtids) - Tx(auth.executed) != {})
  {
  }

  /** What is noted of the backups that turned True. */
  ghost function Noted(recorded: map<string, set<(Uuid, int)>>, newly: set<string>, backups: map<string, Backup>,
                       auth: Authority): map<string, set<(Uuid, int)>> {
    map n | n in recorded.Keys + (newly * backups.Keys) ::
      if n in newly && n in backups then Disowned(backups[n], auth) else recorded[n]
  }

  lemma NotedHolds(recorded: map<string, set<(Uuid, int)>>, newly: set<string>, backups: map<string, Backup>,
                   auth: Authority)
    requires newly <= backups.Keys
    ensures forall n :: n in newly ==>
              n in Noted(recorded, newly, backups, auth) &&
              Noted(recorded, newly, backups, auth)[n] == Disowned(backups[n], auth)
    ensures forall n :: n in recorded && n !in newly ==>
              n in Noted(recorded, newly, backups, auth) && Noted(recorded, newly, backups, auth)[n] == recorded[n]
  {
  }

  /** Every judged backup that holds something dead is marked already. */
  ghost predicate NothingNew(backups: map<string, Backup>, auth: Authority) {
    forall n :: n in backups && Judged(backups[n], auth) && !Marked(backups[n]) ==> Disowned(backups[n], auth) == {}
  }

  lemma NewlyDead(backups: map<string, Backup>, auth: Authority, verdicts: map<string, GtidSet>, union: GtidSet,
                  newly: set<string>)
    requires Verdicts(backups, auth, verdicts, union)
    requires forall n :: n in newly <==> n in verdicts && verdicts[n] != map[] && !Marked(backups[n])
    ensures NothingNew(backups, auth) ==> newly == {}
    ensures newly <= backups.Keys && forall n :: n in newly ==> !Marked(backups[n])
  {
    hide Tx;
    if NothingNew(backups, auth) {
      forall n | n in newly ensures false {
        assert Verdict(backups[n], auth, Tx(verdicts[n]), Tx(union));
        NoTx();
        PairsDecide(verdicts[n], map[]);
      }
    }
  }

  lemma NothingJudged(backups: map<string, Backup>, auth: Authority)
    ensures forall n :: n in backups ==> OnlyMarked(backups[n], backups[n], auth)
    ensures NoneOf({}, Tx(auth.executed))
  {
  }

  lemma NothingExecuted(backups: map<string, Backup>, auth: Authority, verdicts: map<string, GtidSet>, union: GtidSet)
    requires Verdicts(backups, auth, verdicts, union)
    ensures NoneOf(Tx(union), Tx(auth.executed)) && verdicts.Keys <= backups.Keys
  {
  }

  lemma PassOutcome(before: map<string, Backup>, after: map<string, Backup>, auth: Authority,
                    verdicts: map<string, GtidSet>, union: GtidSet, newly: set<string>, index: Option<Index>,
                    unrecorded: set<string>, recorded: map<string, set<(Uuid, int)>>)
    requires Verdicts(before, auth, verdicts, union) && before.Keys == after.Keys
    requires forall n :: n in newly <==> n in verdicts && verdicts[n] != map[] && !Marked(before[n])
    requires newly <= unrecorded || Records(index, Tx(union))
    requires newly <= unrecorded || forall n :: n in newly ==> n in recorded && recorded[n] == Disowned(before[n], auth)
    requires forall n :: n in after ==> Patched(before[n], after[n], n, verdicts)
    ensures forall n :: n in after ==> OnlyMarked(before[n], after[n], auth)
    ensures forall n :: n in after && !Marked(before[n]) && Marked(after[n]) ==>
              n in unrecorded ||
              (Records(index, Disowned(after[n], auth)) && n in recorded && recorded[n] == Disowned(after[n], auth))
  {
    hide Tx;
    forall n | n in after ensures OnlyMarked(before[n], after[n], auth) {
      assert n in verdicts ==> Verdict(before[n], auth, Tx(verdicts[n]), Tx(union));
    }
    forall n | n in after && !Marked(before[n]) && Marked(after[n])
      ensures n in unrecorded ||
              (Records(index, Disowned(after[n], auth)) && n in recorded && recorded[n] == Disowned(after[n], auth))
    {
      assert n in newly && Verdict(before[n], auth, Tx(verdicts[n]), Tx(union));
    }
  }

  lemma CompleteOutcome(before: map<string, Backup>, after: map<string, Backup>, auth: Authority,
                        verdicts: map<string, GtidSet>, union: GtidSet)
    requires Verdicts(before, auth, verdicts, union) && before.Keys == after.Keys
    requires forall n :: n in verdicts <==> n in before && Judged(before[n], auth)
    requires forall n :: n in after ==> Patched(before[n], after[n], n, verdicts)
    requires forall n :: n in verdicts ==> Says(after[n], verdicts[n])
    ensures forall n :: n in after && Judged(after[n], auth) ==> (Marked(after[n]) <==> Disowned(after[n], auth) != {})
  {
    hide Tx;
    forall n | n in after && Judged(after[n], auth) ensures Marked(after[n]) <==> Disowned(after[n], auth) != {} {
      assert n in verdicts && Verdict(before[n], auth, Tx(verdicts[n]), Tx(union));
      NoTx();
      PairsDecide(verdicts[n], map[]);
    }
  }

  /** So every mark stays backed by the record through a pass, given conditional writes. */
  lemma PassKeepsMarks(was: Option<Index>, found: Option<Index>, index: Option<Index>, added: set<(Uuid, int)>,
                       before: map<string, Backup>, after: map<string, Backup>,
                       early: set<(Uuid, int)>, held: set<(Uuid, int)>,
                       noted: map<string, set<(Uuid, int)>>, recorded: map<string, set<(Uuid, int)>>,
                       unrecorded: set<string>, late: set<string>, auth: Authority)
    requires MarksRecorded(early, was, before, noted, unrecorded) && unrecorded <= late && before.Keys == after.Keys
    requires early <= held && IndexLe(held, was, found)
    requires index != found ==> found.Some? && index.Some? && FoldedTo(found.value, added, index.value)
    requires forall n :: n in after ==> OnlyMarked(before[n], after[n], auth)
    requires forall n :: n in after && !Marked(before[n]) && Marked(after[n]) ==>
               n in late ||
               (Records(index, Disowned(after[n], auth)) && n in recorded && recorded[n] == Disowned(after[n], auth))
    requires forall n :: n in before && Marked(before[n]) && n in noted ==> n in recorded && recorded[n] == noted[n]
    ensures MarksRecorded(held, index, after, recorded, late)
  {
    assert IndexLe(held, was, index);
    forall n | n in after && Marked(after[n]) && n !in late
      ensures n in recorded && Backed(after[n], recorded[n], held, index)
    {
      if Marked(before[n]) {
        BackedStays(before[n], noted[n], early, held, was, index);
      } else {
        TurnedBacked(before[n], after[n], auth, held, index);
      }
    }
  }

  /** What the rest of the cluster does between passes: backups come, complete and go; a completed anchor stays. */
  ghost predicate CatalogLe(a: map<string, Backup>, b: map<string, Backup>) {
    forall n :: n in b && Marked(b[n]) ==> n in a && a[n] == b[n]
  }

  /** Passes and the changes between them, in any number. */
  method JudgingRun(bucket: Bucket, catalog: Catalog, passes: seq<(Authority, bool)>,
                    between: (map<string, Backup>, nat) -> map<string, Backup>)
    requires bucket.Valid() && bucket.conditional
    requires forall m, k :: CatalogLe(m, between(m, k))
    requires MarksRecorded(bucket.Held(), bucket.index, catalog.backups, catalog.recorded, catalog.unrecorded)
    modifies bucket, catalog
    ensures MarksRecorded(bucket.Held(), bucket.index, catalog.backups, catalog.recorded, catalog.unrecorded)
    ensures old(bucket.index).Some? ==> catalog.unrecorded == old(catalog.unrecorded)
  {
    hide Backed, WritersKeep;
    for k := 0 to |passes|
      invariant old(bucket.index).Some? ==> bucket.index.Some?
      invariant MarksRecorded(bucket.Held(), bucket.index, catalog.backups, catalog.recorded, catalog.unrecorded)
      invariant old(bucket.index).Some? ==> catalog.unrecorded == old(catalog.unrecorded)
    {
      catalog.backups := between(catalog.backups, k);
      ghost var was, before, unrecorded := bucket.index, catalog.backups, catalog.unrecorded;
      ghost var early, noted := bucket.Held(), catalog.recorded;
      var complete;
      ghost var found, added;
      complete, found, added := JudgeBackups(bucket, catalog, passes[k].0, passes[k].1);
      PassKeepsMarks(was, found, bucket.index, added, before, catalog.backups, early, bucket.Held(),
                     noted, catalog.recorded, unrecorded, catalog.unrecorded, passes[k].0);
    }
  }

  // ---- Read skew ----

  /** What an instance had executed at an instant. */
  type History = (string, int) -> set<(Uuid, int)>

  /** What an instance reports when it is read at an instant. */
  type Readings = (string, int) -> GtidSet

  /** A history as its instances report it. */
  ghost predicate Reported(readings: Readings, executed: History) {
    forall i, t :: Tx(readings(i, t)) == executed(i, t)
  }

  /** Executed sets only grow, and replicas stay within their primary. */
  ghost predicate Replicating(executed: History, primary: string) {
    && (forall i, t, u :: t <= u ==> executed(i, t) <= executed(i, u))
    && (forall i, t :: executed(i, t) <= executed(primary, t))
  }

  /** One poll: whether the instance answered, whether as a primary, and whether with a GTID set. */
  datatype Poll = Poll(name: string, answered: bool, primary: bool, reports: bool)

  /** The name polling leaves as the primary's: the last one to answer as one, or else the planned one. */
  function Picked(planned: string, polls: seq<Poll>): string
  {
    if polls == [] then planned
    else
      var last := polls[|polls| - 1];
      if last.answered && last.primary then last.name else Picked(planned, polls[..|polls| - 1])
  }

  predicate ActsAsPrimary(p: Poll) {
    p.answered && p.primary
  }

  /** It is the last one that answered as a primary, and the planned one only if none did. */
  lemma {:induction false} PickedLast(planned: string, polls: seq<Poll>, k: nat)
    requires k < |polls| && ActsAsPrimary(polls[k]) && forall l :: k < l < |polls| ==> !ActsAsPrimary(polls[l])
    ensures Picked(planned, polls) == polls[k].name
  {
    if k < |polls| - 1 {
      var rest := polls[..|polls| - 1];
      assert forall l :: 0 <= l < |rest| ==> rest[l] == polls[l];
      PickedLast(planned, rest, k);
    }
  }

  lemma {:induction false} NonePicked(planned: string, polls: seq<Poll>)
    requires forall l :: 0 <= l < |polls| ==> !ActsAsPrimary(polls[l])
    ensures Picked(planned, polls) == planned
  {
    if polls != [] {
      var rest := polls[..|polls| - 1];
      assert forall l :: 0 <= l < |rest| ==> rest[l] == polls[l];
      NonePicked(planned, rest);
    }
  }

  /**
    However the cluster replicates, nothing executed anywhere by the instant `read`
    is missing from what `judge` had at `at`.
  */
  ghost predicate SkewFree(judge: string, at: int, read: int) {
    forall executed: History, i, fixed :: Replicating(executed, judge) && fixed <= read ==>
      executed(i, fixed) <= executed(judge, at)
  }

  ghost predicate Ticking(clock: nat -> int) {
    forall k, l :: k < l ==> clock(k) < clock(l)
  }

  /** Polls the instances one after the other; the last one to answer as a primary is taken for it. */
  method PollAll(readings: Readings, planned: string, polls: seq<Poll>, clock: nat -> int)
    returns (seen: map<string, GtidSet>, primary: string, ghost at: map<string, int>)
    requires forall k, l :: k <= l ==> clock(k) <= clock(l)
    ensures primary == Picked(planned, polls) && at.Keys == seen.Keys
    ensures forall i :: i in seen ==> seen[i] == readings(i, at[i]) && at[i] <= clock(|polls|)
    ensures forall k :: 0 <= k < |polls| && polls[k].answered && polls[k].reports ==> polls[k].name in seen
    ensures forall i :: i in seen ==> PolledAt(polls, clock, i, at[i])
  {
    seen, at, primary := map[], map[], planned;
    for k := 0 to |polls|
      invariant primary == Picked(planned, polls[..k]) && at.Keys == seen.Keys
      invariant forall i :: i in seen ==> seen[i] == readings(i, at[i]) && at[i] <= clock(k)
      invariant forall j :: 0 <= j < k && polls[j].answered && polls[j].reports ==> polls[j].name in seen
      invariant forall i :: i in seen ==> PolledAt(polls, clock, i, at[i])
    {
      var p := polls[k];
      assert polls[..k + 1][..k] == polls[..k];
      if p.answered && p.primary {
        primary := p.name;
      }
      if p.answered && p.reports {
        seen, at := seen[p.name := readings(p.name, clock(k + 1))], at[p.name := clock(k + 1)];
        assert PolledAt(polls, clock, p.name, clock(k + 1));
      }
    }
    assert polls[..|polls|] == polls;
  }

  /**
    Polls the instances one after the other, then the one picked for the primary
    again; the topology may name another one afterwards, which backups are then
    judged by. No history can show an instance ahead of it exactly if it is the one
    that was read again. `at` says when each set was read.
  */
  method Observe(readings: Readings, planned: string, polls: seq<Poll>, again: bool, elected: Option<string>,
                 clock: nat -> int)
    returns (seen: map<string, GtidSet>, judge: string, readAt: Option<int>,
             ghost at: map<string, int>, ghost read: int)
    requires forall k, l :: k <= l ==> clock(k) <= clock(l)
    ensures judge == if elected.Some? then elected.value else Picked(planned, polls)
    ensures readAt.Some? <==> again && Picked(planned, polls) != ""
    ensures at.Keys == seen.Keys && forall i :: i in seen ==> seen[i] == readings(i, at[i]) && at[i] <= read
    ensures forall k :: 0 <= k < |polls| && polls[k].answered && polls[k].reports ==> polls[k].name in seen
    ensures forall i :: i in seen && (readAt.None? || i != Picked(planned, polls)) ==> PolledAt(polls, clock, i, at[i])
    ensures readAt.Some? ==> Picked(planned, polls) in seen && at[Picked(planned, polls)] == read == clock(|polls| + 1)
    ensures readAt.Some? ==> readAt.value == clock(|polls| + 2)
    ensures readAt.Some? && judge == Picked(planned, polls) ==>
              forall executed: History :: Reported(readings, executed) && Replicating(executed, judge) ==>
                forall i :: i in seen ==> Tx(seen[i]) <= Tx(seen[judge])
    ensures readAt.Some? && judge in seen && Ticking(clock) ==>
              (SkewFree(judge, at[judge], read) <==> judge == Picked(planned, polls))
  {
    hide Tx, Replicating, SkewFree, Reported, PolledAt;
    var primary;
    seen, primary, at := PollAll(readings, planned, polls, clock);
    readAt, read := None, clock(|polls|);
    if primary != "" && again {
      read := clock(|polls| + 1);
      seen, at := seen[primary := readings(primary, clock(|polls| + 1))], at[primary := read];
      readAt := Some(clock(|polls| + 2));
    }
    judge := if elected.Some? then elected.value else primary;
    if readAt.Some? && judge in seen {
      SkewFreeAt(judge, at[judge], read);
      NoneAhead(readings, judge, seen, at, read);
    }
  }

  ghost predicate PolledAt(polls: seq<Poll>, clock: nat -> int, i: string, at: int) {
    exists k: nat :: k < |polls| && polls[k].name == i && polls[k].answered && polls[k].reports && at == clock(k + 1)
  }

  lemma NoneAhead(readings: Readings, judge: string, seen: map<string, GtidSet>, at: map<string, int>, read: int)
    requires at.Keys == seen.Keys && judge in seen
    requires forall i :: i in seen ==> seen[i] == readings(i, at[i]) && at[i] <= read
    ensures at[judge] == read ==>
              forall executed: History :: Reported(readings, executed) && Replicating(executed, judge) ==>
                forall i :: i in seen ==> Tx(seen[i]) <= Tx(seen[judge])
  {
    hide Tx;
    if at[judge] == read {
      forall executed: History, i | Reported(readings, executed) && Replicating(executed, judge) && i in seen
        ensures Tx(seen[i]) <= Tx(seen[judge])
      {
        assert executed(i, at[i]) <= executed(i, read) <= executed(judge, read);
      }
    }
  }

  lemma SkewFreeAt(judge: string, at: int, read: int)
    ensures SkewFree(judge, at, read) <==> read <= at
  {
    if read <= at {
      forall executed: History, i, fixed | Replicating(executed, judge) && fixed <= read
        ensures executed(i, fixed) <= executed(judge, at)
      {
        assert executed(i, fixed) <= executed(i, at) <= executed(judge, at);
      }
    } else {
      var executed: History := (i, t) => if t < read then {} else {("u", 1)};
      assert Replicating(executed, judge);
      assert ("u", 1) in executed(judge, read) && executed(judge, at) == {};
    }
  }

  /**
    A backup's anchor never exceeds the primary's set if it was fixed no later
    than that set was read, and may otherwise.
  */
  lemma SkewFreeIff(fixed: int, read: int)
    ensures fixed <= read <==>
              forall executed: History, primary, i :: Replicating(executed, primary) ==>
                executed(i, fixed) <= executed(primary, read)
  {
    if fixed <= read {
      forall executed: History, primary, i | Replicating(executed, primary)
        ensures executed(i, fixed) <= executed(primary, read)
      {
        assert executed(i, fixed) <= executed(i, read) <= executed(primary, read);
      }
    } else {
      var executed: History := (i, t) => if t < fixed then {} else {("u", 1)};
      assert Replicating(executed, "p");
      assert ("u", 1) in executed("p", fixed);
    }
  }

  /**
    So a backup of the primary or a replica that completed before the set it is
    judged by was read is never judged dead.
  */
  lemma CompletedBeforeRead(executed: History, primary: string, i: string, fixed: int, completed: int, read: int,
                            b: Backup, auth: Authority)
    requires Replicating(executed, primary) && fixed <= completed <= read
    requires b.anchor.Set? && Tx(b.anchor.gtids) == executed(i, fixed) && Tx(auth.executed) == executed(primary, read)
    ensures Disowned(b, auth) == {}
  {
    hide Tx;
    assert executed(i, fixed) <= executed(i, read) <= executed(primary, read);
  }

  const ONE: GtidSet := map["u" := [Interval(1, 1)]]
  const TWO: GtidSet := map["u" := [Interval(1, 2)]]

  /**
    Under Group Replication every member answers as a primary. Here "p" is polled
    at 1000, "q" at 2000 and again at 3000, and "p" is elected. A backup that
    completed at 3000, before the stamp of that last read and no later than it,
    holds what "p" committed after its own poll, and is judged dead.
  */
  method AnotherMemberReread(b: Backup)
    returns (seen: map<string, GtidSet>, auth: Authority, ghost executed: History)
    requires b == Backup(true, true, false, Set(TWO), Some(3000), None)
    ensures Replicating(executed, "p") && Reported(COMMITTING, executed) && Tx(b.anchor.gtids) == executed("p", 3000)
    ensures "p" in seen && auth.executed == seen["p"] && Tx(auth.executed) == executed("p", 1000)
    ensures Judged(b, auth) && Disowned(b, auth) != {}
  {
    OneAndTwo();
    hide Tx, Picked, PolledAt, Replicating, SkewFree;
    executed := (i, t) => Tx(COMMITTING(i, t));
    var clock := (k: nat) => 1000 * k;
    var judge, readAt;
    ghost var at, read;
    seen, judge, readAt, at, read := Observe(COMMITTING, "p", RACE, true, Some("p"), clock);
    QPicked(clock, at, executed);
    auth := Authority(readAt, true, seen["p"]);
    assert ("u", 2) in Disowned(b, auth);
  }

  const RACE := [Poll("p", true, true, true), Poll("q", true, true, true)]
  const COMMITTING: Readings := (i, t) => if t < 2000 then ONE else TWO

  lemma QPicked(clock: nat -> int, at: map<string, int>, executed: History)
    requires clock(1) == 1000 && Reported(COMMITTING, executed)
    ensures Picked("p", RACE) == "q" && RACE[0].name == "p" && Replicating(executed, "p")
    ensures "p" in at && PolledAt(RACE, clock, "p", at["p"]) ==> at["p"] == 1000
  {
    assert RACE[|RACE| - 1].name == "q" && RACE[1].name != "p";
    OneAndTwo();
    hide Tx;
    forall i, t ensures executed(i, t) == if t < 2000 then Tx(ONE) else Tx(TWO) {
      assert Tx(COMMITTING(i, t)) == executed(i, t);
    }
  }

  lemma OneAndTwo()
    ensures Tx(ONE) == {("u", 1)} && Tx(TWO) == {("u", 1), ("u", 2)}
  {
    TxUpTo(ONE, 1);
    TxUpTo(TWO, 2);
    assert {("u", 1), ("u", 2)} == set x | 1 <= x <= 2 :: ("u", x);
    assert {("u", 1)} == set x | 1 <= x <= 1 :: ("u", x);
  }

  lemma TxUpTo(s: GtidSet, n: int)
    requires 1 <= n <= MAX && s == map["u" := [Interval(1, n)]]
    ensures Tx(s) == set x | 1 <= x <= n :: ("u", x)
  {
    TxIs(s);
    forall u, x ensures (u, x) in Tx(s) <==> u == "u" && 1 <= x <= n {
      assert In(s, u, x) ==> u == "u" && Has(s["u"][0], x);
      assert u == "u" && 1 <= x <= n ==> Has(Get(s, u)[0], x);
    }
  }

  /** A recorded completion time keeps whole seconds only. */
  function Second(milliseconds: int): int {
    milliseconds / 1000 * 1000
  }

  /**
    The guard of a verdict compares the recorded completion with a stamp taken
    after the read. It keeps out every backup that completed after the read only
    if the stamp is no later than the whole second the next millisecond falls in;
    otherwise such a backup, whose anchor may hold more than was read, is judged.
  */
  lemma GuardSoundIff(read: int, readAt: int)
    requires read <= readAt
    ensures (forall completed :: Second(completed) < readAt ==> completed <= read) <==> readAt <= Second(read + 1)
    ensures readAt <= Second(read + 1) ==> readAt <= read + 1
  {
    if readAt <= Second(read + 1) {
      forall completed | Second(completed) < readAt ensures completed <= read {}
    } else {
      assert Second(read + 1) < readAt;
    }
  }

  /**
    A backup of some instance: its anchor is what that had executed when the backup
    fixed it, and its recorded stop is the whole second it completed in.
  */
  ghost predicate TakenFrom(b: Backup, readings: Readings, i: string, fixed: int, completed: int) {
    fixed <= completed && b.anchor == Set(readings(i, fixed)) && b.stoppedAt == Some(Second(completed))
  }

  /** A read that the guard is sound of: no backup completed after it has a stop before its stamp. */
  predicate Guarded(read: int, readAt: int) {
    read <= readAt <= Second(read + 1)
  }

  /**
    A pass as a whole: observe, then judge by the instance named. In a replicating
    cluster, if that is the one read again and the guard is sound of the read, no
    backup of the primary or a replica turns True, and none stays True that the
    pass got to.
  */
  method ObserveAndJudge(bucket: Bucket, catalog: Catalog, listed: bool, writable: bool, readings: Readings,
                         planned: string, polls: seq<Poll>, again: bool, elected: Option<string>, clock: nat -> int,
                         ghost executed: History)
    returns (complete: bool, judge: string, readAt: Option<int>, ghost read: int)
    requires bucket.Valid() && Reported(readings, executed)
    requires forall k, l :: k <= l ==> clock(k) <= clock(l)
    modifies bucket, catalog
    ensures readAt.None? ==> catalog.backups == old(catalog.backups)
    ensures catalog.backups.Keys == old(catalog.backups).Keys
    ensures readAt.Some? && judge == Picked(planned, polls) && Replicating(executed, judge) ==>
              Guarded(read, readAt.value) ==> forall n, i, fixed, completed :: n in old(catalog.backups) ==>
                TakenFrom(old(catalog.backups)[n], readings, i, fixed, completed) ==>
                  !Marked(catalog.backups[n]) || catalog.backups[n] == old(catalog.backups)[n]
  {
    var seen;
    ghost var at;
    seen, judge, readAt, at, read := Observe(readings, planned, polls, again, elected, clock);
    complete := false;
    if readAt.None? || judge !in seen {
      return;
    }
    ghost var before := catalog.backups;
    var auth := Authority(readAt, writable, seen[judge]);
    ghost var found, added;
    complete, found, added := JudgeBackups(bucket, catalog, auth, listed);
    if judge == Picked(planned, polls) && Replicating(executed, judge) && Guarded(read, readAt.value) {
      forall n, i, fixed, completed | n in before && TakenFrom(before[n], readings, i, fixed, completed)
        ensures !Marked(catalog.backups[n]) || catalog.backups[n] == before[n]
      {
        LiveNotMarked(before[n], catalog.backups[n], auth, readings, executed, judge, read, i, fixed, completed);
      }
    }
  }

  lemma LiveNotMarked(a: Backup, b: Backup, auth: Authority, readings: Readings, executed: History, judge: string,
                      read: int, i: string, fixed: int, completed: int)
    requires OnlyMarked(a, b, auth) && TakenFrom(a, readings, i, fixed, completed)
    requires Reported(readings, executed) && Replicating(executed, judge) && auth.executed == readings(judge, read)
    requires auth.readAt.Some? && Guarded(read, auth.readAt.value)
    requires b != a ==> StoppedBefore(b, auth.readAt)
    ensures !Marked(b) || b == a
  {
    if b != a {
      hide Tx;
      GuardSoundIff(read, auth.readAt.value);
      assert Second(completed) < auth.readAt.value;
      assert completed <= read;
      CompletedBeforeRead(executed, judge, i, fixed, completed, read, a, auth);
      NoTx();
      PairsDecide(b.condition.value, map[]);
    }
  }
}
