/**
  Removing the instances above the desired count
  (internal/controller/cluster_topology.go:384-550).
*/
module ScaleDown {
  import opened Wrappers
  import opened Store
  import opened ApiClient
  import opened Volumes

  /** status.currentPrimary and status.targetPrimary, and which Pods the quorum guard or a missing fence holds back. */
  datatype Change = Change(current: Option<nat>, target: Option<nat>, guarded: set<nat>, fenced: set<nat>)

  predicate InFlight(change: Change) {
    change.current.Some? && change.target.Some? && change.current != change.target
  }

  /** An instance scale-down may remove: above the count, and neither primary nor promotion target. */
  predicate Surplus(plan: Plan, change: Change, i: nat) {
    plan.n < i && i != plan.primary && change.target != Some(i)
  }

  /** What a scale-down did to Pods and volumes: surplus instances only, and no bootstrapped volume. */
  ghost predicate RemovalsJustified(plan: Plan, change: Change, v: World, w: World) {
    && v.deleted <= w.deleted && (forall k :: |v.deleted| <= k < |w.deleted| ==> Surplus(plan, change, w.deleted[k]))
    && v.wiped <= w.wiped
    && (forall k :: |v.wiped| <= k < |w.wiped| ==> Surplus(plan, change, w.wiped[k].inst) && !w.wiped[k].bootstrapped)
    && w.started == v.started
  }

  lemma RemovalsTransitive(plan: Plan, change: Change, u: World, v: World, w: World)
    requires RemovalsJustified(plan, change, u, v) && RemovalsJustified(plan, change, v, w)
    ensures RemovalsJustified(plan, change, u, w)
  {
  }

  lemma NothingRemoved(plan: Plan, change: Change, v: World, w: World)
    requires w.deleted == v.deleted && w.wiped == v.wiped && w.started == v.started
    ensures RemovalsJustified(plan, change, v, w)
  {
  }

  lemma RemovalJustified(plan: Plan, change: Change, v: World, w: World, i: nat)
    requires Surplus(plan, change, i) && w.started == v.started
    requires w.deleted == v.deleted || w.deleted == v.deleted + [i]
    requires w.wiped == v.wiped || w.wiped == v.wiped + [Wipe(i, false)]
    ensures RemovalsJustified(plan, change, v, w)
  {
  }

  // ---- What is on its way out stays so ----

  ghost predicate AllLe(m: Slots, k: Slots) {
    forall i: nat :: SlotLe(At(m, i), At(k, i))
  }

  lemma AllLeTransitive(a: Slots, b: Slots, c: Slots)
    requires AllLe(a, b) && AllLe(b, c)
    ensures AllLe(a, c)
  {
    forall i: nat ensures SlotLe(At(a, i), At(c, i)) {
      SlotTransitive(At(a, i), At(b, i), At(c, i));
    }
  }

  lemma EnvIsLe(climate: Climate, m: Slots, k: Slots)
    requires EnvLe(climate, m, k)
    ensures AllLe(m, k)
  {
    forall i: nat ensures SlotLe(At(m, i), At(k, i)) {
      assert EnvSlot(climate, At(m, i), At(k, i));
    }
  }

  lemma TouchedIsLe(climate: Climate, v: World, w: World, i: nat)
    requires Touched(climate, v, w, i, false) && SlotLe(At(v.slots, i), At(w.slots, i))
    ensures AllLe(v.slots, w.slots)
  {
    forall j: nat ensures SlotLe(At(v.slots, j), At(w.slots, j)) {
      assert j != i ==> EnvSlot(climate, At(v.slots, j), At(w.slots, j));
    }
  }

  /** The Pod, the Jobs and an unbootstrapped volume are gone or going. */
  predicate Leaving(s: Slot) {
    && (s.pod.Some? ==> s.pod.value.terminating) && (forall m :: m in s.jobs ==> s.jobs[m].terminating)
    && (s.pvc.Some? ==> s.pvc.value.terminating || Bootstrapped(s.pvc.value))
  }

  lemma StillLeaving(m: Slots, k: Slots, i: nat)
    requires AllLe(m, k)
    ensures Leaving(At(m, i)) ==> Leaving(At(k, i))
    ensures At(k, i).pod.Some? ==> At(m, i).pod.Some?
    ensures At(m, i).pod.Some? && At(m, i).pod.value.terminating && At(k, i).pod.Some? ==>
              At(k, i).pod.value.terminating
    ensures forall n :: n in At(k, i).jobs ==>
              n in At(m, i).jobs && (At(m, i).jobs[n].terminating ==> At(k, i).jobs[n].terminating)
  {
    assert SlotLe(At(m, i), At(k, i));
  }

  lemma PodWasThere(m: Slots, k: Slots, i: nat)
    requires AllLe(m, k)
    ensures At(k, i).pod.Some? ==> At(m, i).pod.Some?
  {
    assert SlotLe(At(m, i), At(k, i));
  }

  /** Deletes the volume only if it never finished bootstrapping. */
  method DeleteUnbootstrappedPvc(api: Api, i: nat) returns (r: Result<()>)
    requires api.Valid() && !api.g.climate.Calm?
    modifies api
    ensures api.Valid() && old(api.reached) <= api.reached
    ensures api.errors == old(api.errors) + (if r.Err? then 1 else 0)
    ensures api.w == old(api.w).(slots := api.w.slots, wiped := api.w.wiped)
    ensures api.w.wiped == old(api.w.wiped) || api.w.wiped == old(api.w.wiped) + [Wipe(i, false)]
    ensures AllLe(old(api.w.slots), api.w.slots)
    ensures r.Ok? && At(api.w.slots, i).pvc.Some? ==>
              At(api.w.slots, i).pvc.value.terminating || Bootstrapped(At(api.w.slots, i).pvc.value)
  {
    hide WorldInv, Obeys, EnvLe, OthersLe, Touched, AllLe;
    ghost var start := api.w.slots;
    var pvc := api.GetPvc(i);
    EnvIsLe(api.g.climate, start, api.w.slots);
    if pvc.Err? { return Err; }
    if pvc.value.None? || Bootstrapped(pvc.value.value) { return Ok(()); }
    ghost var before := api.w.slots;
    r := api.DeletePvc(i);
    EnvIsLe(api.g.climate, before, api.w.slots);
    AllLeTransitive(start, before, api.w.slots);
  }

  /** Deletes a removed instance's Jobs, Pod and unbootstrapped volume. */
  method RemoveInstance(api: Api, i: nat) returns (r: Result<()>)
    requires api.Valid() && !api.g.climate.Calm?
    modifies api
    ensures api.Valid() && old(api.reached) <= api.reached
    ensures api.errors == old(api.errors) + (if r.Err? then 1 else 0)
    ensures api.w == old(api.w).(slots := api.w.slots, deleted := api.w.deleted, down := api.w.down,
                                 wiped := api.w.wiped)
    ensures api.w.deleted == old(api.w.deleted) ||
            (api.w.deleted == old(api.w.deleted) + [i] && old(At(api.w.slots, i)).pod.Some?)
    ensures api.w.wiped == old(api.w.wiped) || api.w.wiped == old(api.w.wiped) + [Wipe(i, false)]
    ensures AllLe(old(api.w.slots), api.w.slots)
    ensures r.Ok? ==> Leaving(At(api.w.slots, i))
  {
    hide WorldInv, Obeys, EnvLe, OthersLe, Touched, AllLe, SlotLe;
    ghost var start := api.w.slots;
    var left := DeleteBootstrapJobs(api, i);
    EnvIsLe(api.g.climate, start, api.w.slots);
    if left.Err? { return Err; }
    ghost var before := api.w;
    var gone := api.DeletePodIfFound(i);
    TouchedIsLe(api.g.climate, before, api.w, i);
    PodWasThere(start, before.slots, i);
    AllLeTransitive(start, before.slots, api.w.slots);
    StillLeaving(before.slots, api.w.slots, i);
    if gone.Err? { return Err; }
    before := api.w;
    r := DeleteUnbootstrappedPvc(api, i);
    AllLeTransitive(start, before.slots, api.w.slots);
    StillLeaving(before.slots, api.w.slots, i);
  }

  /** A surplus instance without a Pod. */
  predicate Leftover(plan: Plan, change: Change, m: Slots, i: nat) {
    Surplus(plan, change, i) && At(m, i).pod.None?
  }

  /** Removes what is left of the named surplus instances that have no Pod; `skipped` are the Pods it could not read. */
  method CollectNamed(api: Api, plan: Plan, change: Change, named: set<nat>) returns (r: Result<()>, ghost skipped: nat)
    requires api.Valid() && (api.g.climate.Calm? ==> named == {})
    modifies api
    ensures api.Valid() && old(api.reached) <= api.reached
    // A Pod that cannot be read is passed over; any other failed call ends the pass.
    ensures api.errors == old(api.errors) + skipped + (if r.Err? then 1 else 0)
    ensures RemovalsJustified(plan, change, old(api.w), api.w) && api.w.deleted == old(api.w.deleted)
    ensures AllLe(old(api.w.slots), api.w.slots)
    ensures r.Ok? && skipped == 0 ==> forall i :: i in named && Leftover(plan, change, old(api.w.slots), i) ==>
              Leaving(At(api.w.slots, i))
  {
    hide WorldInv, Obeys, EnvLe, OthersLe, Touched, Surplus, RemovalsJustified, AllLe, SlotLe, Leaving;
    ghost var start := api.w;
    NothingRemoved(plan, change, start, api.w);
    AllLeReflexive(api.g, api.w);
    skipped := 0;
    var names := named;
    while names != {}
      invariant api.Valid() && old(api.reached) <= api.reached && names <= named
      invariant api.errors == old(api.errors) + skipped
      invariant RemovalsJustified(plan, change, start, api.w) && api.w.deleted == start.deleted
      invariant AllLe(start.slots, api.w.slots)
      invariant skipped == 0 ==> forall i :: i in named && i !in names && Leftover(plan, change, start.slots, i) ==>
                  Leaving(At(api.w.slots, i))
      decreases names
    {
      var i :| i in names;
      names := names - {i};
      if Surplus(plan, change, i) {
        ghost var before := api.w;
        var pod := api.GetPod(i);
        NothingRemoved(plan, change, before, api.w);
        RemovalsTransitive(plan, change, start, before, api.w);
        EnvIsLe(api.g.climate, before.slots, api.w.slots);
        AllLeTransitive(start.slots, before.slots, api.w.slots);
        AllStillLeaving(before.slots, api.w.slots);
        PodWasThere(start.slots, api.w.slots, i);
        if pod.Err? {
          skipped := skipped + 1;
        } else if pod.value.None? {
          before := api.w;
          var removed := RemoveInstance(api, i);
          RemovalJustified(plan, change, before, api.w, i);
          RemovalsTransitive(plan, change, start, before, api.w);
          AllLeTransitive(start.slots, before.slots, api.w.slots);
          AllStillLeaving(before.slots, api.w.slots);
          if removed.Err? { return Err, skipped; }
        }
      }
    }
    return Ok(()), skipped;
  }

  lemma AllStillLeaving(m: Slots, k: Slots)
    requires AllLe(m, k)
    ensures forall i: nat :: Leaving(At(m, i)) ==> Leaving(At(k, i))
  {
    forall i: nat ensures Leaving(At(m, i)) ==> Leaving(At(k, i)) { StillLeaving(m, k, i); }
  }

  /** Without a Pod, a Job or an unbootstrapped volume there is nothing left to go. */
  lemma NothingLeft(m: Slots, jobs: Slots, pvcs: Slots, i: nat)
    requires AllLe(m, jobs) && AllLe(jobs, pvcs) && At(m, i).pod.None? && At(jobs, i).jobs == map[]
    requires At(pvcs, i).pvc.Some? ==> Bootstrapped(At(pvcs, i).pvc.value)
    ensures Leaving(At(pvcs, i))
  {
    PodWasThere(m, jobs, i);
    PodWasThere(jobs, pvcs, i);
    assert SlotLe(At(jobs, i), At(pvcs, i));
  }

  /**
    Drops the leftovers of surplus instances whose Pod is gone or never came. Unless
    a Pod could not be read, none of them keeps a Job or an unbootstrapped volume
    that is not going.
  */
  method CollectSurplusBootstrap(api: Api, plan: Plan, change: Change) returns (r: Result<()>, ghost skipped: nat)
    requires api.Valid() && (api.g.climate.Calm? ==> plan.n == api.g.n)
    modifies api
    ensures api.Valid() && old(api.reached) <= api.reached
    ensures api.errors == old(api.errors) + skipped + (if r.Err? then 1 else 0)
    ensures RemovalsJustified(plan, change, old(api.w), api.w) && api.w.deleted == old(api.w.deleted)
    ensures r.Ok? && skipped == 0 ==> forall i: nat :: Leftover(plan, change, old(api.w.slots), i) ==>
              Leaving(At(api.w.slots, i))
  {
    hide WorldInv, Obeys, EnvLe, OthersLe, Touched, RemovalsJustified, AllLe, SlotLe, Leaving;
    skipped := 0;
    ghost var start := api.w;
    var jobs := api.List();
    NothingRemoved(plan, change, start, api.w);
    EnvIsLe(api.g.climate, start.slots, api.w.slots);
    if jobs.Err? { return Err, skipped; }
    NothingSurplus(api.g, api.w);
    ghost var first := api.w.slots;
    var pvcs := api.List();
    NothingRemoved(plan, change, start, api.w);
    EnvIsLe(api.g.climate, first, api.w.slots);
    if pvcs.Err? { return Err, skipped; }
    NothingSurplus(api.g, api.w);
    var names := (set i | i in jobs.value && jobs.value[i].jobs != map[] && plan.n < i)
               + (set i | i in pvcs.value && pvcs.value[i].pvc.Some? &&
                          !Bootstrapped(pvcs.value[i].pvc.value) && plan.n < i);
    ghost var before := api.w;
    r, skipped := CollectNamed(api, plan, change, names);
    RemovalsTransitive(plan, change, start, before, api.w);
    forall i: nat | r.Ok? && skipped == 0 && Leftover(plan, change, start.slots, i)
      ensures Leaving(At(api.w.slots, i))
    {
      AllLeTransitive(start.slots, first, before.slots);
      PodWasThere(start.slots, before.slots, i);
      if i !in names {
        NothingLeft(start.slots, first, before.slots, i);
        StillLeaving(before.slots, api.w.slots, i);
      }
    }
  }

  /** What the quorum guard and the fence let scale-down remove now. */
  predicate Removable(plan: Plan, change: Change, i: nat) {
    Surplus(plan, change, i) && i !in change.guarded && (plan.groupReplication ==> i in change.fenced)
  }

  /** What went since was past the quorum guard and the fence, above the count, and no primary or successor. */
  ghost predicate OnlyRemovable(plan: Plan, change: Change, before: seq<nat>, after: seq<nat>) {
    before <= after && forall k :: |before| <= k < |after| ==>
      var i := after[k];
      && plan.n < i && i != plan.primary && change.target != Some(i)
      && i !in change.guarded && (plan.groupReplication ==> i in change.fenced)
  }

  lemma OneMoreRemovable(plan: Plan, change: Change, before: seq<nat>, mid: seq<nat>, after: seq<nat>, i: nat)
    requires OnlyRemovable(plan, change, before, mid) && Removable(plan, change, i)
    requires after == mid || after == mid + [i]
    ensures OnlyRemovable(plan, change, before, after)
  {
  }

  /** Goes through the instances listed with a Pod and removes those it may. */
  method RemoveListed(api: Api, plan: Plan, change: Change, listed: set<nat>) returns (r: Result<()>)
    requires api.Valid() && (api.g.climate.Calm? ==> forall i :: i in listed ==> i <= plan.n)
    modifies api
    ensures api.Valid() && old(api.reached) <= api.reached
    ensures api.errors == old(api.errors) + (if r.Err? then 1 else 0)
    ensures RemovalsJustified(plan, change, old(api.w), api.w) && AllLe(old(api.w.slots), api.w.slots)
    ensures OnlyRemovable(plan, change, old(api.w.deleted), api.w.deleted)
    ensures r.Ok? ==> forall i :: i in listed && Removable(plan, change, i) ==> Leaving(At(api.w.slots, i))
  {
    assert OnlyRemovable(plan, change, api.w.deleted, api.w.deleted);
    hide WorldInv, Obeys, EnvLe, OthersLe, Touched, Surplus, RemovalsJustified, AllLe, SlotLe, Leaving, OnlyRemovable;
    ghost var start := api.w;
    NothingRemoved(plan, change, start, api.w);
    AllLeReflexive(api.g, api.w);
    var names := listed;
    while names != {}
      invariant api.Valid() && old(api.reached) <= api.reached && names <= listed
      invariant api.errors == old(api.errors)
      invariant RemovalsJustified(plan, change, start, api.w) && AllLe(start.slots, api.w.slots)
      invariant OnlyRemovable(plan, change, start.deleted, api.w.deleted)
      invariant forall i :: i in listed && i !in names && Removable(plan, change, i) ==> Leaving(At(api.w.slots, i))
      decreases names
    {
      var i :| i in names;
      names := names - {i};
      AboveCount(plan, change, i);
      if Surplus(plan, change, i) && i !in change.guarded && (plan.groupReplication ==> i in change.fenced) {
        ghost var before := api.w;
        var removed := RemoveInstance(api, i);
        RemovalJustified(plan, change, before, api.w, i);
        RemovalsTransitive(plan, change, start, before, api.w);
        AllLeTransitive(start.slots, before.slots, api.w.slots);
        forall j: nat ensures Leaving(At(before.slots, j)) ==> Leaving(At(api.w.slots, j)) {
          StillLeaving(before.slots, api.w.slots, j);
        }
        OneMoreRemovable(plan, change, start.deleted, before.deleted, api.w.deleted, i);
        if removed.Err? { return Err; }
      }
    }
    return Ok(());
  }

  /** Removes what may be removed: after a pass without an error, no such instance has a Pod that is not going. */
  method ScaleDownReplicas(api: Api, plan: Plan, change: Change) returns (r: Result<()>, ghost skipped: nat)
    requires api.Valid() && (api.g.climate.Calm? ==> plan.n == api.g.n)
    modifies api
    ensures api.Valid() && old(api.reached) <= api.reached
    ensures api.errors == old(api.errors) + skipped + (if r.Err? then 1 else 0)
    ensures RemovalsJustified(plan, change, old(api.w), api.w)
    ensures change.current.Some? && change.target.Some? && change.current != change.target ==> api.w == old(api.w)
    ensures OnlyRemovable(plan, change, old(api.w.deleted), api.w.deleted)
    ensures r.Ok? && (change.current.None? || change.target.None? || change.current == change.target) ==>
              forall i: nat :: Removable(plan, change, i) ==> !Live(At(api.w.slots, i))
  {
    assert OnlyRemovable(plan, change, api.w.deleted, api.w.deleted);
    hide WorldInv, Obeys, EnvLe, OthersLe, Touched, Surplus, RemovalsJustified, AllLe, SlotLe, Leaving, OnlyRemovable;
    ghost var start := api.w;
    NothingRemoved(plan, change, start, api.w);
    skipped := 0;
    if InFlight(change) { return Ok(()), skipped; }
    var collected;
    collected, skipped := CollectSurplusBootstrap(api, plan, change);
    if collected.Err? { return Err, skipped; }
    ghost var before := api.w;
    var listed := api.List();
    NothingRemoved(plan, change, before, api.w);
    RemovalsTransitive(plan, change, start, before, api.w);
    if listed.Err? { return Err, skipped; }
    NothingSurplus(api.g, api.w);
    before := api.w;
    var names := set i | i in listed.value && listed.value[i].pod.Some?;
    r := RemoveListed(api, plan, change, names);
    RemovalsTransitive(plan, change, start, before, api.w);
    forall i: nat | r.Ok? && Removable(plan, change, i) ensures !Live(At(api.w.slots, i)) {
      StillLeaving(before.slots, api.w.slots, i);
      PodWasThere(before.slots, api.w.slots, i);
      PodGoing(At(api.w.slots, i));
    }
  }

  lemma AboveCount(plan: Plan, change: Change, i: nat)
    ensures Surplus(plan, change, i) ==> plan.n < i
  {
  }

  /** In a calm run there is nothing to remove above the count. */
  lemma NothingSurplus(g: Ground, w: World)
    requires WorldInv(g, w)
    ensures g.climate.Calm? ==> forall i: nat :: g.n < i && i in w.slots ==> Vacant(w.slots[i])
  {
    forall i: nat | g.climate.Calm? && g.n < i && i in w.slots ensures Vacant(w.slots[i]) {
      assert Vacant(At(w.slots, i));
    }
  }

  lemma PodGoing(s: Slot)
    ensures Leaving(s) ==> !Live(s)
  {
  }

  lemma AllLeReflexive(g: Ground, w: World)
    requires WorldInv(g, w)
    ensures AllLe(w.slots, w.slots)
  {
    EnvReflexive(g, w);
    EnvIsLe(g.climate, w.slots, w.slots);
  }
}
