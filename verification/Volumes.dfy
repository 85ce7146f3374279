/**
  The life of an instance's data volume: created initializing, bootstrapped by
  one Job stamped with its UID, marked ready, and torn down only by a
  re-initialisation (internal/controller/cluster_bootstrap.go, cluster_reinit.go
  and ensurePVC of cluster_resources.go).
*/
module Volumes {
  import opened Wrappers
  import opened Store
  import opened ApiClient

  /** The plan of one reconcile: what the Cluster asks for, and its primary as last recorded. */
  datatype Plan = Plan(n: nat, primary: nat, established: bool, groupReplication: bool,
                       recovery: bool, importing: bool, initializeReplica: bool, resizeInUse: bool, size: Option<nat>,
                       template: nat -> int, specHash: (nat, Mode) -> int)

  /** A resize waits for a new mount; a size left to the volume template is never looked at. */
  predicate Offline(plan: Plan) { plan.size.Some? && !plan.resizeInUse }

  /** The Cluster object a reconcile holds; its reinit annotation is rewritten in place. */
  class Cluster {
    var reinit: set<nat>
    constructor (reinit: set<nat>) ensures this.reinit == reinit { this.reinit := reinit; }
  }

  /** The primary restores in a recovery and imports in an import; a replica never does either. */
  function BootstrapMode(plan: Plan, i: nat): (m: Mode)
    ensures m == Restore <==> i == plan.primary && plan.recovery
    ensures m == Import <==> i == plan.primary && plan.importing && !plan.recovery
    ensures m == Join <==> i != plan.primary && !plan.initializeReplica
  {
    if i == plan.primary then
      if plan.recovery then Restore else if plan.importing then Import else InitDb
    else if plan.initializeReplica then InitDb
    else Join
  }

  /** Not fit for a Pod: no volume, one that is not bootstrapped, or a bootstrap Job still there. */
  predicate Unready(s: Slot) {
    s.pvc.None? || !Bootstrapped(s.pvc.value) || s.jobs != map[]
  }

  /** An unbootstrapped volume with neither Pod nor Job. */
  predicate Bare(s: Slot) {
    s.pvc.Some? && !Bootstrapped(s.pvc.value) && s.pod.None? && s.jobs == map[]
  }

  ghost predicate WasSlot(reached: set<World>, i: nat, s: Slot) {
    exists v :: v in reached && At(v.slots, i) == s
  }

  lemma StillSlot(known: set<World>, reached: set<World>, i: nat, s: Slot)
    requires known <= reached && WasSlot(known, i, s)
    ensures WasSlot(reached, i, s)
  {
  }

  /** The Jobs of an instance by name order; the listing sorts them. */
  function ByName(jobs: map<Mode, Job>): seq<Mode> {
    (if Import in jobs then [Import] else []) + (if InitDb in jobs then [InitDb] else []) +
    (if Join in jobs then [Join] else []) + (if Restore in jobs then [Restore] else [])
  }

  lemma ByNameComplete(jobs: map<Mode, Job>)
    ensures forall m :: m in ByName(jobs) <==> m in jobs
    ensures ByName(jobs) == [] <==> jobs == map[]
  {
    forall m ensures m in ByName(jobs) <==> m in jobs {
      match m case Import => case InitDb => case Join => case Restore =>
    }
    if ByName(jobs) == [] {
      assert forall m :: m !in jobs;
    }
  }

  lemma CalmSettled(g: Ground, w: World, i: nat)
    requires WorldInv(g, w)
    ensures g.climate.Calm? && 1 <= i <= g.n ==> Settled(At(w.slots, i))
  {
  }

  lemma VolumeKnown(g: Ground, w: World, i: nat)
    requires WorldInv(g, w) && At(w.slots, i).pvc.Some?
    ensures At(w.slots, i).pvc.value.uid < w.nextUid
    ensures At(w.slots, i).pvc.value.mark.Legacy? ==> At(w.slots, i).pvc.value.uid < g.base
    ensures !At(w.slots, i).pvc.value.mark.Initializing? && At(w.slots, i).pod.Some? ==>
              At(w.slots, i).pod.value.volume.Some?
  {
    assert SlotInv(g, w.nextUid, At(w.slots, i));
  }

  lemma CompleteJobFinished(g: Ground, w: World, i: nat)
    requires WorldInv(g, w)
    ensures forall m :: m in At(w.slots, i).jobs && At(w.slots, i).jobs[m].phase.Complete? ==>
              At(w.slots, i).jobs[m].volume in At(w.slots, i).finished
  {
    assert SlotInv(g, w.nextUid, At(w.slots, i));
  }

  /** Deletes the instance's bootstrap Jobs; the result is how many were there. */
  method DeleteBootstrapJobs(api: Api, i: nat) returns (r: Result<nat>)
    requires api.Valid() && (api.g.climate.Calm? ==> 1 <= i <= api.g.n)
    modifies api
    ensures api.Valid() && old(api.reached) <= api.reached
    ensures api.errors == old(api.errors) + (if r.Err? then 1 else 0)
    ensures EnvLe(api.g.climate, old(api.w.slots), api.w.slots) && api.w == old(api.w).(slots := api.w.slots)
    ensures Touched(api.g.climate, old(api.w), api.w, i, false) &&
            EnvSlot(api.g.climate, old(At(api.w.slots, i)), At(api.w.slots, i))
    ensures r == Ok(0) ==> At(api.w.slots, i).jobs == map[]
    ensures r.Ok? ==> forall m :: m in At(api.w.slots, i).jobs ==> At(api.w.slots, i).jobs[m].terminating
    ensures api.g.climate.Calm? ==> r.Err? || r == Ok(0)
    ensures old(At(api.w.slots, i)).jobs == map[] && r.Ok? ==> r == Ok(0)
  {
    hide WorldInv, Obeys, EnvLe, OthersLe, Touched, ByName;
    ghost var start := api.w;
    var listed := api.ListJobs(i);
    if listed.Err? { return Err; }
    var jobs := listed.value;
    CalmSettled(api.g, api.w, i);
    var names := ByName(jobs);
    ByNameComplete(jobs);
    var k := 0;
    while k < |names|
      invariant api.Valid() && old(api.reached) <= api.reached
      invariant api.errors == old(api.errors)
      invariant 0 <= k <= |names|
      invariant Touched(api.g.climate, start, api.w, i, false) && EnvLe(api.g.climate, start.slots, api.w.slots)
      invariant EnvSlot(api.g.climate, At(start.slots, i), At(api.w.slots, i)) && api.w == start.(slots := api.w.slots)
      invariant forall m :: m in At(api.w.slots, i).jobs ==> m in jobs && JobLe(jobs[m], At(api.w.slots, i).jobs[m])
      invariant forall l :: 0 <= l < k && names[l] in At(api.w.slots, i).jobs ==>
                At(api.w.slots, i).jobs[names[l]].terminating
    {
      if !jobs[names[k]].terminating {
        ghost var before := api.w;
        var gone := api.DeleteJob(i, names[k]);
        EnvTransitive(api.g.climate, start.slots, before.slots, api.w.slots);
        TouchedTransitive(api.g.climate, start, before, api.w, i, false);
        if gone.Err? { return Err; }
      }
      k := k + 1;
    }
    return Ok(|names|);
  }

  /**
    Drives the volume through its one-shot Job; Ok(true) once it is bootstrapped
    and no bootstrap Job is left, so the Pod may be created.
  */
  method EnsureBootstrapped(api: Api, plan: Plan, i: nat) returns (r: Result<bool>, ghost seen: Slot)
    requires api.Valid() && (api.g.climate.Calm? ==> 1 <= i <= api.g.n)
    modifies api
    ensures api.Valid() && old(api.reached) <= api.reached
    ensures api.errors == old(api.errors) + (if r.Err? then 1 else 0)
    ensures Touched(api.g.climate, old(api.w), api.w, i, false)
    ensures api.w == old(api.w).(slots := api.w.slots, live := api.w.live, started := api.w.started)
    ensures r == Ok(true) ==> At(api.w.slots, i).jobs == map[] &&
                              (At(api.w.slots, i).pvc.Some? ==> Bootstrapped(At(api.w.slots, i).pvc.value))
    ensures api.w.started == old(api.w.started) ||
            (api.w.started == old(api.w.started) + [i] && !(i == plan.primary && plan.established))
    ensures api.g.climate.Calm? ==> EnvLe(api.g.climate, old(api.w.slots), api.w.slots) && r != Ok(false)
    ensures r == Ok(false) && old(At(api.w.slots, i)).jobs == map[] && At(api.w.slots, i).pvc.Some? ==>
              !(old(At(api.w.slots, i)).pvc.Some? && Bootstrapped(old(At(api.w.slots, i)).pvc.value))
    ensures r == Ok(false) ==> Unready(seen) && WasSlot(api.reached, i, seen)
    // An unbootstrapped volume that stays, with neither Pod nor Job, gets its Job, unless of an established primary.
    ensures r.Ok? && Bare(old(At(api.w.slots, i))) && At(api.w.slots, i).pvc.Some? ==>
              api.w.started == old(api.w.started) + [i] || (i == plan.primary && plan.established)
  {
    hide WorldInv, Obeys, EnvLe, OthersLe, Touched, ByName;
    ghost var start := api.w;
    var got := api.GetPvc(i);
    seen := At(api.w.slots, i);
    assert WasSlot(api.reached, i, seen);
    ghost var known := api.reached;
    if got.Err? { return Err, seen; }
    CalmSettled(api.g, api.w, i);
    if got.value.None? { return Ok(false), seen; }
    VolumeKnown(api.g, api.w, i);
    ghost var before := api.w;
    if Bootstrapped(got.value.value) {
      var left := DeleteBootstrapJobs(api, i);
      EnvTransitive(api.g.climate, start.slots, before.slots, api.w.slots);
      TouchedTransitive(api.g.climate, start, before, api.w, i, false);
      StillSlot(known, api.reached, i, seen);
      return if left.Err? then Err else Ok(left.value == 0), seen;
    }
    ghost var jobs;
    r, jobs := Bootstrap(api, plan, i, got.value.value);
    StillSlot(known, api.reached, i, seen);
    TouchedTransitive(api.g.climate, start, before, api.w, i, false);
  }

  /** The part of EnsureBootstrapped for a volume that is not bootstrapped. */
  method Bootstrap(api: Api, plan: Plan, i: nat, pvc: Pvc) returns (r: Result<bool>, ghost jobs: Option<map<Mode, Job>>)
    requires api.Valid() && !api.g.climate.Calm?
    requires At(api.w.slots, i).pvc == Some(pvc) && pvc.uid < api.w.nextUid
    modifies api
    ensures api.Valid() && old(api.reached) <= api.reached
    ensures api.errors == old(api.errors) + (if r.Err? then 1 else 0)
    ensures Touched(api.g.climate, old(api.w), api.w, i, false)
    ensures api.w == old(api.w).(slots := api.w.slots, live := api.w.live, started := api.w.started)
    ensures r != Ok(true)
    ensures api.w.started == old(api.w.started) ||
            (api.w.started == old(api.w.started) + [i] && !(i == plan.primary && plan.established))
    ensures r.Ok? && old(At(api.w.slots, i)).pod.None? && old(At(api.w.slots, i)).jobs == map[] &&
            !(i == plan.primary && plan.established) ==>
              api.w.started == old(api.w.started) + [i] && At(api.w.slots, i).jobs ==
                map[BootstrapMode(plan, i) := Job(pvc.uid, plan.specHash(i, BootstrapMode(plan, i)), Running, false)]
    // The Jobs are looked at unless a Pod holds the volume or it is an established primary's; the first one decides.
    ensures r.Ok? && jobs.None? ==> At(api.w.slots, i).pod.Some? || (i == plan.primary && plan.established)
    ensures r.Ok? && jobs.Some? && jobs.value != map[] ==> api.w.started == old(api.w.started)
    ensures r.Ok? && jobs.Some? && jobs.value != map[] ==>
              Decided(At(api.w.slots, i), pvc, jobs.value, plan.specHash(i, BootstrapMode(plan, i)))
    ensures r.Ok? && jobs == Some(map[]) ==> api.w.started != old(api.w.started) || At(api.w.slots, i).jobs != map[]
  {
    hide WorldInv, Obeys, EnvLe, OthersLe, Touched, ByName, Drops, Earned;
    jobs := None;
    ghost var start := api.w;
    var pod := api.GetPod(i);
    if pod.Err? { return Err, jobs; }
    if pod.value.Some? { return Ok(false), jobs; }
    if i == plan.primary && plan.established { return Ok(false), jobs; }

    ghost var before := api.w;
    var listed := api.ListJobs(i);
    TouchedTransitive(api.g.climate, start, before, api.w, i, false);
    if listed.Err? { return Err, jobs; }
    var found := listed.value;
    jobs := Some(found);
    var names := ByName(found);
    ByNameComplete(found);
    before := api.w;
    if names != [] {
      // Whatever its state, the first Job decides the pass.
      CompleteJobFinished(api.g, api.w, i);
      r := JudgeJob(api, i, pvc, names[0], found[names[0]], plan.specHash(i, BootstrapMode(plan, i)));
    } else {
      var mode := BootstrapMode(plan, i);
      var created := api.CreateJob(i, mode, pvc.uid, plan.specHash(i, mode));
      r := if created.Err? then Err else Ok(false);
    }
    TouchedTransitive(api.g.climate, start, before, api.w, i, false);
  }

  /** The Job did its work for this very volume. */
  predicate Earned(job: Job, pvc: Pvc) {
    !job.terminating && job.volume == pvc.uid && job.phase.Complete?
  }

  /** The Job has done its work, was for another volume, or failed with settings that have changed since. */
  predicate Drops(job: Job, pvc: Pvc, wanted: int) {
    !job.terminating && (job.volume != pvc.uid || job.phase.Complete? || (job.phase.Failed? && job.specHash != wanted))
  }

  /** What the first of some Jobs led to: the mark it earned, and its own removal. */
  ghost predicate Decided(s: Slot, pvc: Pvc, jobs: map<Mode, Job>, wanted: int) {
    exists m :: m in jobs && ByName(jobs) != [] && m == ByName(jobs)[0] &&
      (Earned(jobs[m], pvc) && s.pvc.Some? ==> s.pvc.value.mark.Ready?) &&
      (Drops(jobs[m], pvc, wanted) && m in s.jobs ==> s.jobs[m].terminating)
  }

  /** What a bootstrap Job's state leads to, once no Pod holds the volume. */
  method JudgeJob(api: Api, i: nat, pvc: Pvc, name: Mode, job: Job, wanted: int) returns (r: Result<bool>)
    requires api.Valid() && !api.g.climate.Calm?
    requires At(api.w.slots, i).pvc.Some? ==> PvcLe(pvc, At(api.w.slots, i).pvc.value)
    requires At(api.w.slots, i).pod.None?
    requires job.phase.Complete? ==> job.volume in At(api.w.slots, i).finished
    modifies api
    ensures api.Valid() && old(api.reached) <= api.reached
    ensures api.errors == old(api.errors) + (if r.Err? then 1 else 0)
    ensures Touched(api.g.climate, old(api.w), api.w, i, false) && api.w == old(api.w).(slots := api.w.slots)
    ensures r != Ok(true)
    ensures r.Ok? && Drops(job, pvc, wanted) && name in At(api.w.slots, i).jobs ==>
              At(api.w.slots, i).jobs[name].terminating
    ensures !Drops(job, pvc, wanted) ==> r.Ok? && api.w == old(api.w)
    // Left alone: one that is going, running, or failed under the settings still wanted.
    ensures job.terminating ==> api.w == old(api.w)
    ensures job.volume == pvc.uid && !job.phase.Complete? && (job.phase.Failed? ==> job.specHash == wanted) ==>
              api.w == old(api.w)
    ensures r.Ok? && !job.terminating && name in At(api.w.slots, i).jobs &&
            (job.volume != pvc.uid || job.phase.Complete? || (job.phase.Failed? && job.specHash != wanted)) ==>
              At(api.w.slots, i).jobs[name].terminating
    ensures At(api.w.slots, i).pvc.Some? && (job.volume != pvc.uid || !job.phase.Complete?) ==>
              old(At(api.w.slots, i)).pvc.Some? &&
              At(api.w.slots, i).pvc.value.mark == old(At(api.w.slots, i)).pvc.value.mark
    ensures r.Ok? && Earned(job, pvc) && At(api.w.slots, i).pvc.Some? ==> At(api.w.slots, i).pvc.value.mark.Ready?
    ensures !Earned(job, pvc) && At(api.w.slots, i).pvc.Some? ==>
              old(At(api.w.slots, i)).pvc.Some? &&
              At(api.w.slots, i).pvc.value.mark == old(At(api.w.slots, i)).pvc.value.mark
  {
    hide WorldInv, Obeys, EnvLe, OthersLe, Touched, ByName;
    ghost var start := api.w;
    TouchedReflexive(api.g.climate, api.g, api.w, i);
    var drop := false;
    if job.terminating {
    } else if job.volume != pvc.uid {
      drop := true;
    } else if job.phase.Complete? {
      var marked := api.MarkReady(i);
      if marked.Err? { return Err; }
      drop := true;
    } else if job.phase.Failed? && job.specHash != wanted {
      drop := true;
    }
    if drop {
      ghost var before := api.w;
      var gone := api.DeleteJob(i, name);
      TouchedTransitive(api.g.climate, start, before, api.w, i, false);
      if gone.Err? { return Err; }
    }
    return Ok(false);
  }

  /**
    Creates the volume, or records that an old one is bootstrapped and grows its
    request; Ok(true) when a resize waits for a new mount.
  */
  method EnsurePvc(api: Api, plan: Plan, i: nat) returns (r: Result<bool>)
    requires api.Valid() && (api.g.climate.Calm? ==> 1 <= i <= api.g.n && Offline(plan) == api.g.offline)
    modifies api
    ensures api.Valid() && old(api.reached) <= api.reached
    ensures api.errors == old(api.errors) + (if r.Err? then 1 else 0)
    ensures Touched(api.g.climate, old(api.w), api.w, i, false)
    ensures api.w == old(api.w).(slots := api.w.slots, nextUid := api.w.nextUid)
    ensures r.Ok? ==> At(api.w.slots, i).pvc.Some? && !At(api.w.slots, i).pvc.value.mark.Legacy?
    ensures r.Ok? && plan.size.Some? ==> At(api.w.slots, i).pvc.value.request >= plan.size.value
    ensures r == Ok(true) ==> Offline(plan)
    ensures api.g.climate.Calm? ==> EnvLe(api.g.climate, old(api.w.slots), api.w.slots)
    ensures api.g.climate.Calm? && r == Ok(false) && api.g.offline ==> !Pending(At(api.w.slots, i))
    ensures api.g.climate.Calm? && r == Ok(true) && MayRoll(api.g, old(api.w.slots), i) ==>
              InTurn(api.g, api.w.slots, i)
  {
    hide WorldInv, Obeys, EnvLe, OthersLe, Touched, ByName, MayRoll, InTurn, SlotLe;
    ghost var start := api.w;
    var got := api.GetPvc(i);
    CalmSettled(api.g, api.w, i);
    if got.Err? { return Err; }
    ghost var before := api.w;
    if got.value.None? {
      var created := api.CreatePvc(i, if plan.size.Some? then plan.size.value else 0);
      TouchedTransitive(api.g.climate, start, before, api.w, i, false);
      return if created.Err? then Err else Ok(false);
    }
    var pvc := got.value.value;
    if pvc.mark.Legacy? {
      VolumeKnown(api.g, api.w, i);
      var marked := api.MarkReady(i);
      TouchedTransitive(api.g.climate, start, before, api.w, i, false);
      if marked.Err? { return Err; }
    }
    if plan.size.None? { return Ok(false); }
    if api.g.climate.Calm? && MayRoll(api.g, start.slots, i) {
      MayRollStable(api.g, start.slots, before.slots, i);
      DueInTurn(api.g, before.slots, i);
    }
    before := api.w;
    var grown := GrowVolume(api, i, pvc, plan.size.value);
    TouchedTransitive(api.g.climate, start, before, api.w, i, false);
    if api.g.climate.Calm? {
      EnvTransitive(api.g.climate, start.slots, before.slots, api.w.slots);
      if InTurn(api.g, before.slots, i) { InTurnStable(api.g, before.slots, api.w.slots, i); }
    }
    return if grown.Err? then Err else Ok(!plan.resizeInUse && pvc.resizePending);
  }

  /** Asks for the wanted size; a larger request is left alone. */
  method GrowVolume(api: Api, i: nat, pvc: Pvc, size: nat) returns (r: Result<()>)
    requires api.Valid() && At(api.w.slots, i).pvc.Some? && pvc.request <= At(api.w.slots, i).pvc.value.request
    modifies api
    ensures api.Valid() && old(api.reached) <= api.reached
    ensures api.errors == old(api.errors) + (if r.Err? then 1 else 0)
    ensures Touched(api.g.climate, old(api.w), api.w, i, false) && api.w == old(api.w).(slots := api.w.slots)
    ensures EnvLe(api.g.climate, old(api.w.slots), api.w.slots) &&
            EnvSlot(api.g.climate, old(At(api.w.slots, i)), At(api.w.slots, i))
    ensures r.Ok? ==> At(api.w.slots, i).pvc.Some? && At(api.w.slots, i).pvc.value.request >= size
    ensures At(api.w.slots, i).pvc.Some? ==> PvcLe(old(At(api.w.slots, i)).pvc.value, At(api.w.slots, i).pvc.value)
  {
    hide WorldInv, Obeys, EnvLe, OthersLe, Touched;
    EnvReflexive(api.g, api.w);
    EnvTouches(api.g, api.w, api.w, i);
    if size <= pvc.request { return Ok(()); }
    r := api.GrowPvc(i, size);
  }

  lemma DueInTurn(g: Ground, m: Slots, i: nat)
    requires MayRoll(g, m, i)
    ensures g.offline && Pending(At(m, i)) ==> InTurn(g, m, i)
  {
  }

  // ---- Re-initialisation ----

  function PodWeight(s: Slot): nat { if s.pod.None? then 0 else if s.pod.value.terminating then 1 else 2 }
  function PvcWeight(s: Slot): nat { if s.pvc.None? then 0 else if s.pvc.value.terminating then 1 else 2 }
  function JobWeight(s: Slot, m: Mode): nat { if m !in s.jobs then 0 else if s.jobs[m].terminating then 1 else 2 }

  /** What is left to tear down of an instance. */
  function Weight(s: Slot): nat {
    PodWeight(s) + PvcWeight(s) +
    JobWeight(s, Import) + JobWeight(s, InitDb) + JobWeight(s, Join) + JobWeight(s, Restore)
  }

  /** Whatever is left of the instance is on its way out. */
  predicate Going(s: Slot) {
    && (s.pod.Some? ==> s.pod.value.terminating) && (s.pvc.Some? ==> s.pvc.value.terminating)
    && (forall m :: m in s.jobs ==> s.jobs[m].terminating)
  }

  predicate VolumeGoing(s: Slot) { s.pvc.Some? ==> s.pvc.value.terminating }

  lemma VolumeStaysGoing(s: Slot, t: Slot)
    requires SlotLe(s, t)
    ensures VolumeGoing(s) ==> VolumeGoing(t)
  {
  }

  predicate Gone(s: Slot) { s.pod.None? && s.pvc.None? && s.jobs == map[] }

  /** The environment only ever brings a teardown forward. */
  lemma WeightFalls(s: Slot, t: Slot)
    requires SlotLe(s, t)
    ensures Weight(t) <= Weight(s)
    ensures Going(s) ==> Going(t)
    ensures Going(t) && !Going(s) ==> Weight(t) < Weight(s)
    ensures Weight(t) == 0 <==> Gone(t)
  {
    forall m: Mode ensures JobWeight(t, m) <= JobWeight(s, m) {}
    if Going(t) && !Going(s) && (s.pod.Some? ==> s.pod.value.terminating) && (s.pvc.Some? ==> s.pvc.value.terminating) {
      var m :| m in s.jobs && !s.jobs[m].terminating;
      assert JobWeight(t, m) < JobWeight(s, m);
      match m case Import => case InitDb => case Join => case Restore =>
    }
    if Weight(t) == 0 {
      forall m: Mode ensures m !in t.jobs { match m case Import => case InitDb => case Join => case Restore => }
    }
  }

  /** What is gone stays gone, and what is terminating stays so. */
  lemma StaysGone(s: Slot, t: Slot)
    requires SlotLe(s, t)
    ensures t.pod.Some? ==> s.pod.Some? && (s.pod.value.terminating ==> t.pod.value.terminating)
    ensures forall m :: m in t.jobs ==> m in s.jobs && (s.jobs[m].terminating ==> t.jobs[m].terminating)
  {
  }

  /** Deletes the Pod, the bootstrap Jobs and the volume; Ok(true) when none of them was there any more. */
  method TearDown(api: Api, i: nat) returns (r: Result<bool>)
    requires api.Valid() && !api.g.climate.Calm?
    modifies api
    ensures api.Valid() && old(api.reached) <= api.reached
    ensures api.errors == old(api.errors) + (if r.Err? then 1 else 0)
    ensures Touched(api.g.climate, old(api.w), api.w, i, false) && SlotLe(old(At(api.w.slots, i)), At(api.w.slots, i))
    ensures api.w == old(api.w).(slots := api.w.slots, live := api.w.live, deleted := api.w.deleted,
                                 down := api.w.down, wiped := api.w.wiped)
    ensures api.w.deleted == old(api.w.deleted) ||
            (api.w.deleted == old(api.w.deleted) + [i] && old(At(api.w.slots, i)).pod.Some? && r != Ok(true))
    ensures api.w.wiped == old(api.w.wiped) || exists b :: api.w.wiped == old(api.w.wiped) + [Wipe(i, b)]
    ensures r.Ok? ==> Going(At(api.w.slots, i))
    ensures r == Ok(true) ==> Gone(At(api.w.slots, i))
    // What is going is not deleted again, and what was gone is reported gone.
    ensures old(At(api.w.slots, i)).pod.Some? && old(At(api.w.slots, i)).pod.value.terminating ==>
              api.w.deleted == old(api.w.deleted)
    ensures VolumeGoing(old(At(api.w.slots, i))) ==> api.w.wiped == old(api.w.wiped)
    ensures r.Ok? && Gone(old(At(api.w.slots, i))) ==> r == Ok(true)
  {
    hide WorldInv, Obeys, EnvLe, OthersLe, Touched, ByName, SlotLe;
    ghost var start := api.w;
    var pod := api.GetPod(i);
    if pod.Err? { return Err; }
    StaysGone(At(start.slots, i), At(api.w.slots, i));
    ghost var before := api.w;
    if pod.value.Some? && !pod.value.value.terminating {
      var gone := api.DeletePodIfFound(i);
      TouchedTransitive(api.g.climate, start, before, api.w, i, false);
      SlotTransitive(At(start.slots, i), At(before.slots, i), At(api.w.slots, i));
      if gone.Err? { return Err; }
    }
    before := api.w;
    var left := DeleteBootstrapJobs(api, i);
    TouchedTransitive(api.g.climate, start, before, api.w, i, false);
    SlotTransitive(At(start.slots, i), At(before.slots, i), At(api.w.slots, i));
    StaysGone(At(before.slots, i), At(api.w.slots, i));
    if left.Err? { return Err; }
    before := api.w;
    VolumeStaysGoing(At(start.slots, i), At(before.slots, i));
    var pvc := DeleteVolume(api, i);
    TouchedTransitive(api.g.climate, start, before, api.w, i, false);
    SlotTransitive(At(start.slots, i), At(before.slots, i), At(api.w.slots, i));
    StaysGone(At(before.slots, i), At(api.w.slots, i));
    if pvc.Err? { return Err; }
    return Ok(pod.value.None? && pvc.value && left.value == 0);
  }

  /** Ok(true) when the volume was not there any more. */
  method DeleteVolume(api: Api, i: nat) returns (r: Result<bool>)
    requires api.Valid() && !api.g.climate.Calm?
    modifies api
    ensures api.Valid() && old(api.reached) <= api.reached
    ensures api.errors == old(api.errors) + (if r.Err? then 1 else 0)
    ensures Touched(api.g.climate, old(api.w), api.w, i, false) && SlotLe(old(At(api.w.slots, i)), At(api.w.slots, i))
    ensures api.w == old(api.w).(slots := api.w.slots, wiped := api.w.wiped)
    ensures api.w.wiped == old(api.w.wiped) || exists b :: api.w.wiped == old(api.w.wiped) + [Wipe(i, b)]
    ensures r.Ok? && At(api.w.slots, i).pvc.Some? ==> At(api.w.slots, i).pvc.value.terminating
    ensures r == Ok(true) ==> At(api.w.slots, i).pvc.None?
    ensures VolumeGoing(old(At(api.w.slots, i))) ==> api.w.wiped == old(api.w.wiped)
    ensures r.Ok? && old(At(api.w.slots, i)).pvc.None? ==> r == Ok(true)
  {
    hide WorldInv, Obeys, EnvLe, OthersLe, Touched, ByName;
    ghost var start := api.w;
    var pvc := api.GetPvc(i);
    if pvc.Err? { return Err; }
    if pvc.value.Some? && !pvc.value.value.terminating {
      ghost var before := api.w;
      var gone := api.DeletePvc(i);
      TouchedTransitive(api.g.climate, start, before, api.w, i, false);
      if gone.Err? { return Err; }
    }
    return Ok(pvc.value.None?);
  }

  /**
    Drives a requested re-initialisation. Ok(true) while the Pod, Jobs and volume
    go; Ok(false) once they are gone, or when there is nothing to do. The plan's
    primary is never touched.
  */
  method ReconcileReinit(api: Api, cluster: Cluster, plan: Plan, i: nat) returns (r: Result<bool>)
    requires api.Valid() && (i in cluster.reinit && i != plan.primary ==> !api.g.climate.Calm?)
    modifies api, cluster
    ensures api.Valid() && old(api.reached) <= api.reached
    ensures api.errors == old(api.errors) + (if r.Err? then 1 else 0)
    ensures cluster.reinit == old(cluster.reinit) || cluster.reinit == old(cluster.reinit) - {i}
    ensures i !in old(cluster.reinit) || i == plan.primary ==> api.w == old(api.w) && r != Ok(true)
    // The primary's request is dropped, and another one's once everything is gone.
    ensures i == plan.primary ==> i !in cluster.reinit
    ensures i in old(cluster.reinit) && i != plan.primary && r.Ok? && Gone(old(At(api.w.slots, i))) ==>
              r == Ok(false) && i !in cluster.reinit
    ensures Touched(api.g.climate, old(api.w), api.w, i, false)
    ensures api.w == old(api.w).(slots := api.w.slots, live := api.w.live, deleted := api.w.deleted,
                                 down := api.w.down, wiped := api.w.wiped)
    ensures api.w.deleted == old(api.w.deleted) ||
            (api.w.deleted == old(api.w.deleted) + [i] && old(At(api.w.slots, i)).pod.Some? && r != Ok(false))
    ensures api.w.wiped == old(api.w.wiped) || exists b :: api.w.wiped == old(api.w.wiped) + [Wipe(i, b)]
    ensures r == Ok(true) ==> Going(At(api.w.slots, i)) && Weight(At(api.w.slots, i)) <= old(Weight(At(api.w.slots, i)))
    ensures r == Ok(true) && !Going(old(At(api.w.slots, i))) ==>
              Weight(At(api.w.slots, i)) < old(Weight(At(api.w.slots, i)))
    ensures i in old(cluster.reinit) && i != plan.primary && r == Ok(false) ==>
              i !in cluster.reinit && Gone(At(api.w.slots, i)) && At(api.w.slots, i).floor == api.w.nextUid
  {
    hide WorldInv, Obeys, EnvLe, OthersLe, Touched, ByName, SlotLe, Weight;
    TouchedReflexive(api.g.climate, api.g, api.w, i);
    if i !in cluster.reinit { return Ok(false); }
    if i == plan.primary {
      cluster.reinit := cluster.reinit - {i};
      var patched := api.PatchMetadata();
      return if patched.Err? then Err else Ok(false);
    }
    ghost var start := api.w;
    var gone := TearDown(api, i);
    if gone.Err? { return Err; }
    WeightFalls(At(start.slots, i), At(api.w.slots, i));
    if !gone.value { return Ok(true); }
    ghost var before := api.w;
    api.RecordTeardown(i);
    TouchedByTeardown(api.g, before, i);
    TouchedTransitive(api.g.climate, start, before, api.w, i, false);
    cluster.reinit := cluster.reinit - {i};
    var patched := api.PatchMetadata();
    r := if patched.Err? then Err else Ok(false);
  }

  lemma TouchedByTeardown(g: Ground, w: World, i: nat)
    requires WorldInv(g, w)
    ensures Touched(g.climate, w, RequestCleared(w, i), i, false)
  {
    EnvReflexive(g, w);
    forall j: nat ensures j != i ==> At(RequestCleared(w, i).slots, j) == At(w.slots, j) {}
  }
}
