/**
  Provisioning and rolling the instances (internal/controller/cluster_topology.go,
  ensurePod and rollForResize of cluster_resources.go, cluster_auto_reinit.go):
  one ordinal loop over live reads and a snapshot that may be stale.
*/
module Rollout {
  import opened Wrappers
  import opened Store
  import opened ApiClient
  import opened Volumes

  /**
    What the pass observed before it started: the acting primary, the instances
    whose manager reported ready (and, under Group Replication, ONLINE), overall
    readiness, and the failed instances. `current` is status.currentPrimary.
  */
  datatype Observed = Observed(primary: Option<nat>, ok: set<nat>, ready: bool, fullOutage: bool, current: Option<nat>,
                               donor: bool, quorumBlocked: bool, failed: seq<nat>, primaryReady: bool)

  /** The elected primary, or the planned one when none is observed. */
  function Elected(plan: Plan, obs: Observed): nat {
    if obs.primary.Some? then obs.primary.value else plan.primary
  }

  /** In a total outage only the last-seen primary is brought up. */
  predicate OutagePath(obs: Observed) { obs.fullOutage && obs.current.Some? }

  /** The instance was read live and Ready in this pass, and its manager had reported ready. */
  predicate Seen(obs: Observed, w: World, i: nat) { i in w.live && i in obs.ok }

  /** The instance is not up, or was not reported ready. */
  predicate Awaited(obs: Observed, m: Slots, i: nat) { i !in obs.ok || !Up(At(m, i)) }

  /** An instance whose manager reported ready still serves, unless it is going or was recreated since. */
  ghost predicate Witnessed(obs: Observed, m: Slots) {
    forall j: nat :: j in obs.ok && At(m, j).pod.Some? && !At(m, j).pod.value.terminating && !At(m, j).born ==>
      At(m, j).pod.value.serving
  }

  // ---- The gate ----

  /** A Pod read now is live and Ready, and its manager had reported ready. */
  predicate ReadyIn(obs: Observed, i: nat, pod: Option<Pod>) {
    pod.Some? && LiveReady(pod.value) && i in obs.ok
  }

  /**
    What a gate decides on its readings: an instance without a Pod comes back on
    its own data, and in a quorum recovery so does any; otherwise its predecessor
    has to be ready, and for a new instance there has to be a donor.
  */
  predicate Admits(obs: Observed, i: nat, pod: Option<Pod>, pvc: Option<Pvc>, previous: Option<Pod>)
    requires 1 < i
  {
    ((pod.None? || obs.quorumBlocked) && pvc.Some? && Bootstrapped(pvc.value)) ||
    (ReadyIn(obs, i - 1, previous) && (pod.Some? || obs.donor))
  }

  /** The same with all readings of one moment; ordinal 1 has no gate. */
  predicate Gate(obs: Observed, m: Slots, i: nat) {
    i <= 1 || Admits(obs, i, At(m, i).pod, At(m, i).pvc, At(m, i - 1).pod)
  }

  ghost predicate WasPod(reached: set<World>, i: nat, pod: Option<Pod>) {
    exists v :: v in reached && At(v.slots, i).pod == pod
  }

  ghost predicate WasPvc(reached: set<World>, i: nat, pvc: Option<Pvc>) {
    exists v :: v in reached && At(v.slots, i).pvc == pvc
  }

  method InstanceFullyReady(api: Api, obs: Observed, i: nat) returns (r: Result<bool>)
    requires api.Valid()
    modifies api
    ensures api.Valid() && old(api.reached) <= api.reached
    ensures api.errors == old(api.errors) + (if r.Err? then 1 else 0)
    ensures EnvLe(api.g.climate, old(api.w.slots), api.w.slots)
    ensures api.w == old(api.w).(slots := api.w.slots, live := api.w.live) && old(api.w.live) <= api.w.live
    ensures r == Ok(true) ==>
              Seen(obs, api.w, i) && At(api.w.slots, i).pod.Some? && LiveReady(At(api.w.slots, i).pod.value)
    ensures r.Ok? ==> r.value == ReadyIn(obs, i, At(api.w.slots, i).pod)
    ensures r == Ok(false) ==> Awaited(obs, api.w.slots, i)
  {
    hide WorldInv, Obeys, EnvLe, OthersLe, Touched;
    var pod := api.GetPod(i);
    if pod.Err? { return Err; }
    if pod.value.None? || !LiveReady(pod.value.value) { return Ok(false); }
    return Ok(i in obs.ok);
  }

  /**
    Whether the pass may go on to instance `i`: the gate's decision on a Pod, a
    volume and a predecessor read in turn.
  */
  method GateInstance(api: Api, obs: Observed, i: nat)
    returns (r: Result<bool>, ghost pod: Option<Pod>, ghost pvc: Option<Pvc>, ghost previous: Option<Pod>)
    requires api.Valid() && 1 < i
    modifies api
    ensures api.Valid() && old(api.reached) <= api.reached
    ensures api.errors == old(api.errors) + (if r.Err? then 1 else 0)
    ensures EnvLe(api.g.climate, old(api.w.slots), api.w.slots)
    ensures api.w == old(api.w).(slots := api.w.slots, live := api.w.live) && old(api.w.live) <= api.w.live
    ensures r.Ok? ==> r.value == Admits(obs, i, pod, pvc, previous)
    // An instance with neither Pod nor data joins a ready predecessor, from a donor.
    ensures r == Ok(true) && pod.None? && (pvc.None? || !Bootstrapped(pvc.value)) ==>
              obs.donor && i - 1 in obs.ok && previous.Some? && LiveReady(previous.value)
    // One with a Pod is let through in a quorum recovery, and only on its own data.
    ensures r == Ok(true) && pod.Some? && !(i - 1 in obs.ok && previous.Some? && LiveReady(previous.value)) ==>
              obs.quorumBlocked && pvc.Some? && Bootstrapped(pvc.value)
    ensures r == Ok(false) && pvc.Some? && Bootstrapped(pvc.value) ==> pod.Some? && !obs.quorumBlocked
    ensures r.Ok? ==> WasPod(api.reached, i, pod) && WasPvc(api.reached, i, pvc) && WasPod(api.reached, i - 1, previous)
    ensures r == Ok(true) && !obs.quorumBlocked ==>
              At(api.w.slots, i).pod.None? ||
              (Seen(obs, api.w, i - 1) &&
               At(api.w.slots, i - 1).pod.Some? && LiveReady(At(api.w.slots, i - 1).pod.value))
    ensures r == Ok(false) ==>
              !(i - 1 in obs.ok && At(api.w.slots, i - 1).pod.Some? && LiveReady(At(api.w.slots, i - 1).pod.value)) ||
              (!obs.donor && At(api.w.slots, i).pod.None?)
  {
    hide WorldInv, Obeys, EnvLe, OthersLe, Touched;
    ghost var start := api.w;
    pod, pvc, previous := None, None, None;
    var found := api.GetPod(i);
    if found.Err? { return Err, pod, pvc, previous; }
    pod := found.value;
    assert WasPod(api.reached, i, pod);
    ghost var before, known := api.w, api.reached;
    pvc, previous := At(api.w.slots, i).pvc, At(api.w.slots, i - 1).pod;
    assert WasPvc(known, i, pvc) && WasPod(known, i - 1, previous);
    if found.value.None? || obs.quorumBlocked {
      var volume := api.GetPvc(i);
      EnvTransitive(api.g.climate, start.slots, before.slots, api.w.slots);
      if volume.Err? { return Err, pod, pvc, previous; }
      pvc := volume.value;
      assert WasPod(api.reached, i, pod) && WasPod(api.reached, i - 1, previous);
      assert api.w in api.reached && WasPvc(api.reached, i, pvc);
      if volume.value.Some? && Bootstrapped(volume.value.value) { return Ok(true), pod, pvc, previous; }
    }
    before, known := api.w, api.reached;
    var ready := InstanceFullyReady(api, obs, i - 1);
    EnvTransitive(api.g.climate, start.slots, before.slots, api.w.slots);
    PodStaysGone(api.g.climate, before.slots, api.w.slots, i);
    previous := At(api.w.slots, i - 1).pod;
    assert api.w in api.reached && WasPod(known, i, pod) && WasPvc(known, i, pvc);
    if ready.Err? { return Err, pod, pvc, previous; }
    if !ready.value { return Ok(false), pod, pvc, previous; }
    return Ok(found.value.Some? || obs.donor), pod, pvc, previous;
  }

  lemma PodStaysGone(climate: Climate, m: Slots, k: Slots, i: nat)
    requires EnvLe(climate, m, k)
    ensures At(m, i).pod.None? ==> At(k, i).pod.None?
    ensures climate.Calm? && Live(At(m, i)) ==>
              Live(At(k, i)) && At(k, i).pod.value.template == At(m, i).pod.value.template
  {
    assert EnvSlot(climate, At(m, i), At(k, i));
  }

  /** Creates the Pod, or deletes it when its template changed and rolling is allowed; Ok(true) when it deleted it. */
  method EnsurePod(api: Api, plan: Plan, i: nat, allowRoll: bool) returns (r: Result<bool>)
    requires api.Valid() && At(api.w.slots, i).jobs == map[]
    requires At(api.w.slots, i).pvc.Some? ==> Bootstrapped(At(api.w.slots, i).pvc.value)
    requires api.g.climate.Calm? ==> 1 <= i <= api.g.n && plan.template(i) == api.g.want(i) &&
                                     (allowRoll ==> MayRoll(api.g, api.w.slots, i))
    modifies api
    ensures api.Valid() && old(api.reached) <= api.reached
    ensures api.errors == old(api.errors) + (if r.Err? then 1 else 0)
    ensures Touched(api.g.climate, old(api.w), api.w, i, true)
    ensures api.w == old(api.w).(slots := api.w.slots, nextUid := api.w.nextUid, live := api.w.live,
                                 deleted := api.w.deleted, down := api.w.down)
    ensures api.w.deleted == old(api.w.deleted) ||
            (api.w.deleted == old(api.w.deleted) + [i] &&
             allowRoll && r != Ok(false) && old(At(api.w.slots, i)).pod.Some?)
    ensures r == Ok(false) && allowRoll ==> NotStale(At(api.w.slots, i), plan.template(i))
    ensures r == Ok(false) ==> At(api.w.slots, i).pod.Some?
    ensures r == Ok(false) && old(At(api.w.slots, i)).pod.None? ==> At(api.w.slots, i).born
    ensures r == Ok(true) ==> At(api.w.slots, i).pod.Some? && At(api.w.slots, i).pod.value.terminating
    ensures api.g.climate.Calm? && r == Ok(true) ==> api.w.deleted == old(api.w.deleted) + [i]
    ensures api.g.climate.Calm? && allowRoll && !NotStale(old(At(api.w.slots, i)), plan.template(i)) ==> r != Ok(false)
  {
    hide WorldInv, Obeys, EnvLe, OthersLe, Touched, Turn;
    ghost var start := api.w;
    var got := api.GetPod(i);
    PodStaysGone(api.g.climate, start.slots, api.w.slots, i);
    Weaken(api.g.climate, start, api.w, i);
    if got.Err? { return Err; }
    ghost var before := api.w;
    if got.value.None? {
      var created := api.CreatePod(i, plan.template(i));
      TouchedTransitive(api.g.climate, start, before, api.w, i, true);
      return if created.Err? then Err else Ok(false);
    }
    var pod := got.value.value;
    if pod.terminating { return Ok(false); }
    if pod.template != plan.template(i) {
      if !allowRoll { return Ok(false); }
      if api.g.climate.Calm? {
        MayRollStable(api.g, start.slots, before.slots, i);
      }
      var gone := api.DeletePod(i);
      TouchedTransitive(api.g.climate, start, before, api.w, i, false);
      Weaken(api.g.climate, start, api.w, i);
      return if gone.Err? then Err else Ok(true);
    }
    var patched := api.PatchMetadata();
    return if patched.Err? then Err else Ok(false);
  }

  /** Recycles the Pod so a pending resize completes; Ok(true) when it goes. */
  method RollForResize(api: Api, i: nat, allowRoll: bool) returns (r: Result<bool>)
    requires api.Valid() && (api.g.climate.Calm? && allowRoll ==> InTurn(api.g, api.w.slots, i))
    modifies api
    ensures api.Valid() && old(api.reached) <= api.reached
    ensures api.errors == old(api.errors) + (if r.Err? then 1 else 0)
    ensures Touched(api.g.climate, old(api.w), api.w, i, false)
    ensures SlotLe(old(At(api.w.slots, i)), At(api.w.slots, i))
    ensures r == Ok(false) ==> EnvLe(api.g.climate, old(api.w.slots), api.w.slots)
    ensures api.w == old(api.w).(slots := api.w.slots, live := api.w.live, deleted := api.w.deleted, down := api.w.down)
    ensures api.w.deleted == old(api.w.deleted) ||
            (api.w.deleted == old(api.w.deleted) + [i] &&
             allowRoll && r != Ok(false) && old(At(api.w.slots, i)).pod.Some?)
    ensures r == Ok(true) ==> At(api.w.slots, i).pod.Some? && At(api.w.slots, i).pod.value.terminating
    ensures r == Ok(false) && allowRoll ==> At(api.w.slots, i).pod.None?
    ensures api.g.climate.Calm? && r == Ok(true) && Live(old(At(api.w.slots, i))) ==>
              api.w.deleted == old(api.w.deleted) + [i]
  {
    hide WorldInv, Obeys, EnvLe, OthersLe, Touched, SlotLe, Turn;
    ghost var start := api.w;
    EnvReflexive(api.g, api.w);
    SlotReflexive(api.g, api.w, i);
    TouchedReflexive(api.g.climate, api.g, api.w, i);
    if !allowRoll { return Ok(false); }
    var got := api.GetPod(i);
    if got.Err? { return Err; }
    if got.value.None? { return Ok(false); }
    if got.value.value.terminating { return Ok(true); }
    ghost var before := api.w;
    StaysGone(At(start.slots, i), At(before.slots, i));
    if api.g.climate.Calm? { InTurnStable(api.g, start.slots, before.slots, i); }
    var gone := api.DeletePod(i);
    TouchedTransitive(api.g.climate, start, before, api.w, i, false);
    SlotTransitive(At(start.slots, i), At(before.slots, i), At(api.w.slots, i));
    return if gone.Err? then Err else Ok(true);
  }

  lemma SlotReflexive(g: Ground, w: World, i: nat)
    requires WorldInv(g, w)
    ensures SlotLe(At(w.slots, i), At(w.slots, i))
  {
    assert SlotInv(g, w.nextUid, At(w.slots, i));
  }

  /** The last steps of EnsureInstance, on a bootstrapped volume no Job holds. */
  method EnsureRunning(api: Api, plan: Plan, i: nat, allowRoll: bool, resize: bool) returns (r: Result<bool>)
    requires api.Valid() && At(api.w.slots, i).jobs == map[]
    requires At(api.w.slots, i).pvc.Some? ==> Bootstrapped(At(api.w.slots, i).pvc.value)
    requires api.g.climate.Calm? ==> 1 <= i <= api.g.n && plan.template(i) == api.g.want(i) &&
                                     (allowRoll ==> MayRoll(api.g, api.w.slots, i)) &&
                                     (allowRoll && resize ==> InTurn(api.g, api.w.slots, i))
    modifies api
    ensures api.Valid() && old(api.reached) <= api.reached
    ensures api.errors == old(api.errors) + (if r.Err? then 1 else 0)
    ensures Touched(api.g.climate, old(api.w), api.w, i, true)
    ensures api.w == old(api.w).(slots := api.w.slots, nextUid := api.w.nextUid, live := api.w.live,
                                 deleted := api.w.deleted, down := api.w.down)
    ensures api.w.deleted == old(api.w.deleted) ||
            (api.w.deleted == old(api.w.deleted) + [i] &&
             allowRoll && r != Ok(false) && old(At(api.w.slots, i)).pod.Some?)
    ensures r == Ok(false) && allowRoll ==> NotStale(At(api.w.slots, i), plan.template(i))
    ensures r == Ok(false) ==> At(api.w.slots, i).pod.Some?
    ensures r == Ok(true) ==> At(api.w.slots, i).pod.Some? && At(api.w.slots, i).pod.value.terminating
    ensures r == Ok(false) && allowRoll && resize ==> At(api.w.slots, i).born
    ensures api.g.climate.Calm? && r == Ok(true) && Live(old(At(api.w.slots, i))) ==>
              api.w.deleted == old(api.w.deleted) + [i]
    ensures api.g.climate.Calm? && allowRoll && !NotStale(old(At(api.w.slots, i)), plan.template(i)) ==> r != Ok(false)
  {
    hide WorldInv, Obeys, EnvLe, OthersLe, Touched, Turn, MayRoll, InTurn;
    ghost var start := api.w;
    if resize {
      r := RollForResize(api, i, allowRoll);
      Weaken(api.g.climate, start, api.w, i);
      if r.Err? || r.value { return; }
      PodStaysGone(api.g.climate, start.slots, api.w.slots, i);
      if api.g.climate.Calm? && allowRoll { MayRollStable(api.g, start.slots, api.w.slots, i); }
    }
    ghost var before := api.w;
    TouchedReflexive(api.g.climate, api.g, api.w, i);
    r := EnsurePod(api, plan, i, allowRoll);
    TouchedTransitive(api.g.climate, start, before, api.w, i, true);
  }

  lemma Weaken(climate: Climate, v: World, w: World, i: nat)
    requires Touched(climate, v, w, i, false)
    ensures Touched(climate, v, w, i, true)
    ensures At(w.slots, i).pod.Some? ==> At(v.slots, i).pod.Some?
  {
  }

  /** The volume, its bootstrap and the Pod of an instance. */
  method Provision(api: Api, plan: Plan, i: nat, allowRoll: bool) returns (r: Result<bool>, ghost seen: Slot)
    requires api.Valid()
    requires api.g.climate.Calm? ==> 1 <= i <= api.g.n && plan.template(i) == api.g.want(i) &&
                                     Offline(plan) == api.g.offline &&
                                     (allowRoll ==> MayRoll(api.g, api.w.slots, i))
    modifies api
    ensures api.Valid() && old(api.reached) <= api.reached
    ensures api.errors == old(api.errors) + (if r.Err? then 1 else 0)
    // The Pod is there unless the instance was seen not fit for one.
    ensures r == Ok(false) ==> At(api.w.slots, i).pod.Some? || (Unready(seen) && WasSlot(api.reached, i, seen))
    ensures Touched(api.g.climate, old(api.w), api.w, i, true)
    ensures api.w.deleted == old(api.w.deleted) ||
            (api.w.deleted == old(api.w.deleted) + [i] && r != Ok(false) && old(At(api.w.slots, i)).pod.Some? &&
             allowRoll)
    ensures api.w.wiped == old(api.w.wiped)
    ensures api.w.started == old(api.w.started) ||
            (api.w.started == old(api.w.started) + [i] && !(i == plan.primary && plan.established))
    ensures api.g.climate.Calm? && r == Ok(false) && allowRoll ==> NotStale(At(api.w.slots, i), plan.template(i))
    ensures r == Ok(true) && At(api.w.slots, i).pod.Some? ==> At(api.w.slots, i).pod.value.terminating
    ensures api.g.climate.Calm? && r == Ok(false) && allowRoll && api.g.offline && Pending(At(api.w.slots, i)) ==>
              At(api.w.slots, i).born
    ensures api.g.climate.Calm? && r == Ok(true) && Live(old(At(api.w.slots, i))) ==>
              api.w.deleted == old(api.w.deleted) + [i]
    ensures api.g.climate.Calm? && allowRoll && !NotStale(old(At(api.w.slots, i)), plan.template(i)) ==> r != Ok(false)
  {
    hide WorldInv, Obeys, EnvLe, OthersLe, Touched, Turn, MayRoll, InTurn, SlotLe, WasSlot, Unready;
    ghost var start := api.w;
    ghost var before := api.w;
    seen := At(api.w.slots, i);
    TouchedReflexive(api.g.climate, api.g, api.w, i);
    var resize := EnsurePvc(api, plan, i);
    TouchedTransitive(api.g.climate, start, before, api.w, i, false);
    Weaken(api.g.climate, start, api.w, i);
    if resize.Err? { return Err, seen; }
    if api.g.climate.Calm? {
      PodStaysGone(api.g.climate, before.slots, api.w.slots, i);
      if allowRoll { MayRollStable(api.g, before.slots, api.w.slots, i); }
    }
    before := api.w;
    var up;
    up, seen := EnsureBootstrapped(api, plan, i);
    TouchedTransitive(api.g.climate, start, before, api.w, i, false);
    Weaken(api.g.climate, start, api.w, i);
    if up.Err? { return Err, seen; }
    if !up.value { return Ok(false), seen; }
    if api.g.climate.Calm? {
      PodStaysGone(api.g.climate, before.slots, api.w.slots, i);
      PendingFalls(api.g.climate, before, api.w, i);
      if allowRoll {
        MayRollStable(api.g, before.slots, api.w.slots, i);
        if resize.value { InTurnStable(api.g, before.slots, api.w.slots, i); }
      }
    }
    before := api.w;
    r := EnsureRunning(api, plan, i, allowRoll, resize.value);
    PendingFalls(api.g.climate, before, api.w, i);
    TouchedTransitive(api.g.climate, start, before, api.w, i, true);
  }

  /** Reconciles one instance; Ok(true) when its Pod was deleted or is going, so the pass must stop. */
  method EnsureInstance(api: Api, cluster: Cluster, plan: Plan, i: nat, allowRoll: bool)
    returns (r: Result<bool>, ghost seen: Slot)
    requires api.Valid()
    requires api.g.climate.Calm? ==> 1 <= i <= api.g.n && plan.template(i) == api.g.want(i) && i !in cluster.reinit &&
                                     Offline(plan) == api.g.offline &&
                                     (allowRoll ==> MayRoll(api.g, api.w.slots, i))
    modifies api, cluster
    ensures api.Valid() && old(api.reached) <= api.reached
    ensures api.errors == old(api.errors) + (if r.Err? then 1 else 0)
    ensures cluster.reinit == old(cluster.reinit) || cluster.reinit == old(cluster.reinit) - {i}
    ensures r == Ok(false) ==> At(api.w.slots, i).pod.Some? || (Unready(seen) && WasSlot(api.reached, i, seen))
    ensures Touched(api.g.climate, old(api.w), api.w, i, true)
    ensures api.w.deleted == old(api.w.deleted) ||
            (api.w.deleted == old(api.w.deleted) + [i] && r != Ok(false) && old(At(api.w.slots, i)).pod.Some? &&
             (allowRoll || (i in old(cluster.reinit) && i != plan.primary)))
    ensures api.w.wiped == old(api.w.wiped) ||
            (i in old(cluster.reinit) && i != plan.primary &&
             exists b :: api.w.wiped == old(api.w.wiped) + [Wipe(i, b)])
    ensures api.w.started == old(api.w.started) ||
            (api.w.started == old(api.w.started) + [i] && !(i == plan.primary && plan.established))
    ensures api.g.climate.Calm? && r == Ok(false) && allowRoll ==> NotStale(At(api.w.slots, i), plan.template(i))
    ensures r == Ok(true) && At(api.w.slots, i).pod.Some? ==> At(api.w.slots, i).pod.value.terminating
    ensures api.g.climate.Calm? && r == Ok(false) && allowRoll && api.g.offline && Pending(At(api.w.slots, i)) ==>
              At(api.w.slots, i).born
    ensures api.g.climate.Calm? && r == Ok(true) && Live(old(At(api.w.slots, i))) ==>
              api.w.deleted == old(api.w.deleted) + [i]
    ensures api.g.climate.Calm? && allowRoll && !NotStale(old(At(api.w.slots, i)), plan.template(i)) ==> r != Ok(false)
  {
    hide WorldInv, Obeys, EnvLe, OthersLe, Touched, Turn, MayRoll, InTurn, SlotLe, Weight, Gone;
    hide NotStale, Pending, WasSlot, Unready;
    ghost var start := api.w;
    var handled := ReconcileReinit(api, cluster, plan, i);
    Weaken(api.g.climate, start, api.w, i);
    seen := At(api.w.slots, i);
    if handled.Err? { return Err, seen; }
    if handled.value { return Ok(true), seen; }
    ghost var before := api.w;
    r, seen := Provision(api, plan, i, allowRoll);
    TouchedTransitive(api.g.climate, start, before, api.w, i, true);
  }

  lemma PendingFalls(climate: Climate, v: World, w: World, i: nat)
    requires Touched(climate, v, w, i, true) || Touched(climate, v, w, i, false)
    ensures climate.Calm? && Pending(At(w.slots, i)) ==> Pending(At(v.slots, i))
  {
  }

  // ---- The chain of readiness the gates build up ----

  /**
    With instances below `i` handled: from `k` up, each but the last was seen
    ready, and `k` is 1 or an instance whose Pod was missing when its turn came.
  */
  ghost predicate Chain(climate: Climate, obs: Observed, w: World, k: nat, i: nat) {
    if i == 1 then k == 1
    else
      && 1 <= k < i
      && (forall j: nat :: k <= j < i - 1 ==> Seen(obs, w, j))
      && (k == 1 || (climate.Any? && At(w.slots, k).born) ||
          (k == i - 1 && (At(w.slots, k).pod.None? || At(w.slots, k).born)))
  }

  /** The same, once instance `i`'s gate is passed. */
  ghost predicate Gated(climate: Climate, obs: Observed, w: World, k: nat, i: nat) {
    && 1 <= k <= i
    && (forall j: nat :: k <= j < i ==> Seen(obs, w, j))
    && (if k < i then k == 1 || (climate.Any? && At(w.slots, k).born) else i == 1 || At(w.slots, i).pod.None?)
  }

  lemma GateExtends(g: Ground, obs: Observed, v: World, w: World, k: nat, i: nat) returns (next: nat)
    requires WorldInv(g, w) && EnvLe(g.climate, v.slots, w.slots) && v.live <= w.live
    requires Chain(g.climate, obs, v, k, i) && 1 < i
    requires At(w.slots, i).pod.None? ||
             (Seen(obs, w, i - 1) && At(w.slots, i - 1).pod.Some? && LiveReady(At(w.slots, i - 1).pod.value))
    ensures Gated(g.climate, obs, w, next, i)
  {
    next := if At(w.slots, i).pod.None? then i else k;
    assert EnvSlot(g.climate, At(v.slots, k), At(w.slots, k));
    assert SlotInv(g, w.nextUid, At(w.slots, k));
    forall j: nat | next <= j < i - 1 ensures Seen(obs, w, j) { assert Seen(obs, v, j); }
  }

  lemma EnsureExtends(g: Ground, obs: Observed, v: World, w: World, k: nat, i: nat)
    requires Gated(g.climate, obs, v, k, i) && Touched(g.climate, v, w, i, true)
    ensures Chain(g.climate, obs, w, k, i + 1)
  {
    assert k != i ==> EnvSlot(g.climate, At(v.slots, k), At(w.slots, k));
    forall j: nat | k <= j < i ensures Seen(obs, w, j) { assert Seen(obs, v, j); }
  }

  // ---- The same loop in a calm run ----

  ghost predicate Handled(g: Ground, m: Slots, i: nat) {
    forall j: nat :: 1 <= j < i && j != g.primary ==> RollDone(g, At(m, j), j)
  }

  /** On its template, and with no resize pending unless its Pod is of this pass. */
  predicate RollDone(g: Ground, s: Slot, i: nat) {
    NotStale(s, g.want(i)) && (g.offline && Pending(s) ==> s.born)
  }

  /** With instances below `i` handled, and those below `up` up. */
  ghost predicate CalmLoop(g: Ground, obs: Observed, m: Slots, up: nat, i: nat) {
    Witnessed(obs, m) && Handled(g, m, i) && forall j: nat :: 1 <= j < up ==> Up(At(m, j))
  }

  lemma CalmStable(g: Ground, obs: Observed, m: Slots, k: Slots, up: nat, i: nat)
    requires g.climate.Calm? && CalmLoop(g, obs, m, up, i) && EnvLe(g.climate, m, k)
    ensures CalmLoop(g, obs, k, up, i)
  {
    forall j: nat ensures EnvSlot(g.climate, At(m, j), At(k, j)) {}
  }

  lemma CalmReady(g: Ground, obs: Observed, w: World, i: nat)
    requires WorldInv(g, w) && g.climate.Calm? && Witnessed(obs, w.slots)
    requires i in obs.ok && At(w.slots, i).pod.Some? && LiveReady(At(w.slots, i).pod.value)
    ensures Up(At(w.slots, i))
  {
    assert SlotInv(g, w.nextUid, At(w.slots, i));
  }

  lemma CalmGate(g: Ground, obs: Observed, w: World, i: nat)
    requires WorldInv(g, w) && g.climate.Calm? && 1 < i <= g.n
    requires CalmLoop(g, obs, w.slots, i - 1, i)
    requires At(w.slots, i).pod.None? ||
             (Seen(obs, w, i - 1) && At(w.slots, i - 1).pod.Some? && LiveReady(At(w.slots, i - 1).pod.value))
    ensures CalmLoop(g, obs, w.slots, i, i)
  {
    if At(w.slots, i).pod.None? {
      assert !Up(At(w.slots, i)) && i == w.down;
      assert Up(At(w.slots, i - 1));
    } else {
      CalmReady(g, obs, w, i - 1);
    }
  }

  /** With everything below it up and handled, a stale replica's roll is its turn. */
  lemma CalmTurn(g: Ground, obs: Observed, w: World, i: nat)
    requires WorldInv(g, w) && g.climate.Calm? && 1 <= i <= g.n && i != g.primary
    requires CalmLoop(g, obs, w.slots, i, i)
    ensures MayRoll(g, w.slots, i)
  {
    if Owes(g, At(w.slots, i), i) {
      forall j: nat | 1 <= j <= g.n && j != i ensures Up(At(w.slots, j)) {
        assert i < j == w.down ==> OnTemplate(At(w.slots, i), g.want(i)) && !(g.offline && Pending(At(w.slots, i)));
      }
      UpIsDone(g, w);
    }
  }

  /** A Pod that is up is not of this pass, so a handled instance that is up has nothing pending. */
  lemma UpIsDone(g: Ground, w: World)
    requires WorldInv(g, w) && g.climate.Calm?
    ensures forall j: nat :: Up(At(w.slots, j)) && RollDone(g, At(w.slots, j), j) ==>
              OnTemplate(At(w.slots, j), g.want(j)) && !(g.offline && Pending(At(w.slots, j)))
  {
    forall j: nat ensures SlotInv(g, w.nextUid, At(w.slots, j)) {}
  }

  lemma CalmEnsured(g: Ground, obs: Observed, v: World, w: World, i: nat)
    requires g.climate.Calm? && CalmLoop(g, obs, v.slots, i, i) && Touched(g.climate, v, w, i, true)
    requires i == g.primary || RollDone(g, At(w.slots, i), i)
    ensures CalmLoop(g, obs, w.slots, i, i + 1)
  {
    forall j: nat ensures j != i ==> EnvSlot(g.climate, At(v.slots, j), At(w.slots, j)) {}
  }

  lemma CalmPrimaryTurn(g: Ground, w: World)
    requires WorldInv(g, w) && g.climate.Calm? && 1 <= g.primary <= g.n && Handled(g, w.slots, g.n + 1)
    requires forall j: nat :: 1 <= j <= g.n && j != g.primary ==> Up(At(w.slots, j))
    ensures MayRoll(g, w.slots, g.primary)
  {
    UpIsDone(g, w);
  }

  // ---- Automatic re-initialisation ----

  const AUTO_RESTARTS := 7
  const CORRUPTION_RESTARTS := 3

  /** A Pod that keeps crashing: soon enough to act when it reported corrupt data, later when it did not say why. */
  predicate ShouldAutoReinit(pod: Pod): (b: bool)
    ensures b ==> pod.crashLoop && pod.restarts >= CORRUPTION_RESTARTS
    ensures b && !pod.corrupt ==> pod.restarts >= AUTO_RESTARTS
    ensures pod.crashLoop && pod.restarts >= AUTO_RESTARTS ==> b
    ensures pod.crashLoop && pod.corrupt && pod.restarts >= CORRUPTION_RESTARTS ==> b
  {
    pod.crashLoop && pod.restarts >= (if pod.corrupt then CORRUPTION_RESTARTS else AUTO_RESTARTS)
  }

  /** Who may be picked at all: a failed replica of an established async cluster with a healthy primary. */
  predicate AutoEligible(plan: Plan, obs: Observed, i: nat) {
    !plan.groupReplication && plan.established && obs.primary.Some? && obs.primaryReady &&
    i in obs.failed && i != obs.primary.value
  }

  /** Some reached world showed the instance crash-looping past its threshold. */
  ghost predicate ShownCrashing(reached: set<World>, i: nat) {
    exists v :: v in reached && At(v.slots, i).pod.Some? && ShouldAutoReinit(At(v.slots, i).pod.value)
  }

  /** Adds a request for exactly the eligible instances whose Pod it read crash-looping; `read` are those readings. */
  method ReconcileAutoReinit(api: Api, cluster: Cluster, plan: Plan, obs: Observed)
    returns (r: Result<()>, ghost read: set<(nat, Option<Pod>)>)
    requires api.Valid()
    modifies api, cluster
    ensures api.Valid() && old(api.reached) <= api.reached
    ensures api.errors == old(api.errors) + (if r.Err? then 1 else 0)
    ensures EnvLe(api.g.climate, old(api.w.slots), api.w.slots)
    ensures api.w == old(api.w).(slots := api.w.slots, live := api.w.live) && old(api.w.live) <= api.w.live
    ensures old(cluster.reinit) <= cluster.reinit
    ensures forall i :: i in cluster.reinit && i !in old(cluster.reinit) ==>
              AutoEligible(plan, obs, i) && ShownCrashing(api.reached, i)
    ensures forall i :: i in cluster.reinit && i !in old(cluster.reinit) ==>
              && !plan.groupReplication && plan.established && obs.primaryReady
              && obs.primary.Some? && i != obs.primary.value && i in obs.failed
    ensures forall p :: p in read ==> WasPod(api.reached, p.0, p.1)
    ensures r.Ok? ==> forall i :: AutoEligible(plan, obs, i) && i !in old(cluster.reinit) ==>
              ReadOnce(read, i) && (i in cluster.reinit <==> ReadCrashing(read, i))
  {
    hide WorldInv, Obeys, EnvLe, OthersLe, Touched, WasPod, ShownCrashing;
    ghost var start := api.w;
    read := {};
    EnvReflexive(api.g, api.w);
    if plan.groupReplication || !plan.established || obs.failed == [] || obs.primary.None? || !obs.primaryReady {
      return Ok(()), read;
    }
    var picked: set<nat> := {};
    for k := 0 to |obs.failed|
      invariant api.Valid() && old(api.reached) <= api.reached
      invariant api.errors == old(api.errors)
      invariant EnvLe(api.g.climate, start.slots, api.w.slots)
      invariant api.w == start.(slots := api.w.slots, live := api.w.live) && start.live <= api.w.live
      invariant cluster.reinit == old(cluster.reinit)
      invariant forall i :: i in picked ==> AutoEligible(plan, obs, i) && ShownCrashing(api.reached, i)
      invariant forall p :: p in read ==> WasPod(api.reached, p.0, p.1)
      invariant forall i :: i in picked <==> ReadCrashing(read, i)
      invariant forall i :: i in obs.failed[..k] && i != obs.primary.value && i !in cluster.reinit ==> ReadOnce(read, i)
    {
      var i := obs.failed[k];
      if i != obs.primary.value && i !in cluster.reinit {
        ghost var before := api.w;
        ghost var known := api.reached;
        var pod := api.GetPod(i);
        EnvTransitive(api.g.climate, start.slots, before.slots, api.w.slots);
        forall j | j in picked ensures ShownCrashing(api.reached, j) { StillShown(known, api.reached, j); }
        forall p | p in read ensures WasPod(api.reached, p.0, p.1) { StillWas(known, api.reached, p.0, p.1); }
        if pod.Err? { return Err, read; }
        ReadNow(api.reached, api.w, i);
        ghost var earlier := read;
        read := read + {(i, pod.value)};
        if pod.value.Some? && ShouldAutoReinit(pod.value.value) {
          picked := picked + {i};
        }
        AlsoRead(earlier, i, pod.value);
      }
    }
    cluster.reinit := cluster.reinit + picked;
    r := api.PatchMetadata();
  }

  ghost predicate ReadOnce(read: set<(nat, Option<Pod>)>, i: nat) {
    exists pod :: (i, pod) in read
  }

  ghost predicate ReadCrashing(read: set<(nat, Option<Pod>)>, i: nat) {
    exists pod :: (i, pod) in read && pod.Some? && ShouldAutoReinit(pod.value)
  }

  lemma AlsoRead(read: set<(nat, Option<Pod>)>, i: nat, pod: Option<Pod>)
    ensures var all := read + {(i, pod)};
            && (forall j :: ReadOnce(all, j) <==> ReadOnce(read, j) || j == i)
            && (forall j ::
                  ReadCrashing(all, j) <==>
                  ReadCrashing(read, j) || (j == i && pod.Some? && ShouldAutoReinit(pod.value)))
  {
    var all := read + {(i, pod)};
    assert (i, pod) in all;
    forall j: nat ensures ReadOnce(read, j) ==> ReadOnce(all, j) {
      if p :| (j, p) in read { assert (j, p) in all; }
    }
    forall j: nat ensures ReadCrashing(read, j) ==> ReadCrashing(all, j) {
      if p :| (j, p) in read && p.Some? && ShouldAutoReinit(p.value) { assert (j, p) in all; }
    }
  }

  lemma StillShown(known: set<World>, reached: set<World>, i: nat)
    requires known <= reached && ShownCrashing(known, i)
    ensures ShownCrashing(reached, i)
  {
  }

  lemma StillWas(known: set<World>, reached: set<World>, i: nat, pod: Option<Pod>)
    requires known <= reached && WasPod(known, i, pod)
    ensures WasPod(reached, i, pod)
  {
  }

  lemma ReadNow(reached: set<World>, w: World, i: nat)
    requires w in reached
    ensures WasPod(reached, i, At(w.slots, i).pod)
    ensures At(w.slots, i).pod.Some? && ShouldAutoReinit(At(w.slots, i).pod.value) ==> ShownCrashing(reached, i)
  {
  }

  /** Whether the primary's Pod carries a stale template. */
  method InstancePendingRoll(api: Api, plan: Plan, i: nat) returns (r: Result<bool>)
    requires api.Valid()
    modifies api
    ensures api.Valid() && old(api.reached) <= api.reached
    ensures api.errors == old(api.errors) + (if r.Err? then 1 else 0)
    ensures EnvLe(api.g.climate, old(api.w.slots), api.w.slots)
    ensures api.w == old(api.w).(slots := api.w.slots, live := api.w.live) && old(api.w.live) <= api.w.live
    ensures r.Ok? ==> (r.value <==> !NotStale(At(api.w.slots, i), plan.template(i)))
  {
    hide WorldInv, Obeys, EnvLe, OthersLe, Touched;
    var pod := api.GetPod(i);
    if pod.Err? { return Err; }
    if pod.value.None? || pod.value.value.terminating { return Ok(false); }
    return Ok(pod.value.value.template != plan.template(i));
  }

  method ReplicasFullyReady(api: Api, plan: Plan, obs: Observed, primary: nat) returns (r: Result<bool>)
    requires api.Valid()
    requires api.g.climate.Calm? ==> Witnessed(obs, api.w.slots) && Handled(api.g, api.w.slots, plan.n + 1)
    modifies api
    ensures api.Valid() && old(api.reached) <= api.reached
    ensures api.errors == old(api.errors) + (if r.Err? then 1 else 0)
    ensures EnvLe(api.g.climate, old(api.w.slots), api.w.slots)
    ensures api.w == old(api.w).(slots := api.w.slots, live := api.w.live) && old(api.w.live) <= api.w.live
    ensures r == Ok(true) ==> forall j: nat :: 1 <= j <= plan.n && j != primary ==> Seen(obs, api.w, j)
    ensures api.g.climate.Calm? ==> Handled(api.g, api.w.slots, plan.n + 1)
    ensures api.g.climate.Calm? && r == Ok(true) ==>
              forall j: nat :: 1 <= j <= plan.n && j != primary ==> Up(At(api.w.slots, j))
    ensures r == Ok(false) ==> Waiting(plan.n, obs, api.w.slots)
    ensures r == Ok(false) ==> exists j: nat :: 1 <= j <= plan.n && j != primary && Awaited(obs, api.w.slots, j)
  {
    hide WorldInv, Obeys, EnvLe, OthersLe, Touched, Witnessed, Handled, Up;
    ghost var start := api.w;
    EnvReflexive(api.g, api.w);
    for i := 1 to plan.n + 1
      invariant api.Valid() && old(api.reached) <= api.reached
      invariant api.errors == old(api.errors)
      invariant EnvLe(api.g.climate, start.slots, api.w.slots)
      invariant api.w == start.(slots := api.w.slots, live := api.w.live) && start.live <= api.w.live
      invariant forall j: nat :: 1 <= j < i && j != primary ==> Seen(obs, api.w, j)
      invariant api.g.climate.Calm? ==> Witnessed(obs, api.w.slots) && Handled(api.g, api.w.slots, plan.n + 1)
      invariant api.g.climate.Calm? ==> forall j: nat :: 1 <= j < i && j != primary ==> Up(At(api.w.slots, j))
    {
      if i != primary {
        ghost var before := api.w;
        var ready := InstanceFullyReady(api, obs, i);
        EnvTransitive(api.g.climate, start.slots, before.slots, api.w.slots);
        forall j: nat | 1 <= j < i && j != primary ensures Seen(obs, api.w, j) { assert Seen(obs, before, j); }
        if api.g.climate.Calm? { CalmKept(api.g, obs, before.slots, api.w.slots, plan.n + 1); }
        if ready.Err? { return Err; }
        if !ready.value { return Ok(false); }
        if api.g.climate.Calm? { CalmReady(api.g, obs, api.w, i); }
      }
    }
    return Ok(true);
  }

  lemma CalmKept(g: Ground, obs: Observed, m: Slots, k: Slots, i: nat)
    requires g.climate.Calm? && Witnessed(obs, m) && Handled(g, m, i) && EnvLe(g.climate, m, k)
    ensures Witnessed(obs, k) && Handled(g, k, i)
    ensures forall j: nat :: Up(At(m, j)) ==> Up(At(k, j))
  {
    forall j: nat ensures EnvSlot(g.climate, At(m, j), At(k, j)) {}
  }

  // ---- The pass ----

  /** Everything below `i` was seen ready down to `k`, which is 1 or an instance this very pass brought back. */
  ghost predicate ReadyBelow(climate: Climate, obs: Observed, w: World, i: nat) {
    exists k: nat :: 1 <= k < i && Gated(climate, obs, w, k, i)
  }

  /**
    What one pass's Pod deletions mean. There is at most one. A replica above
    ordinal 1 went only with the instances below it seen ready; the elected
    primary only with every other one, or for a requested re-initialisation; in
    a full outage nothing is rolled.
  */
  ghost predicate RollJustified(climate: Climate, plan: Plan, obs: Observed, requested: set<nat>, w: World) {
    w.deleted == [] ||
    exists i: nat :: w.deleted == [i] &&
      if OutagePath(obs) then
        i in requested && i != plan.primary
      else if i == Elected(plan, obs) then
        (i in requested && i != plan.primary) || (obs.ready && OthersSeen(plan, obs, w, i))
      else
        i <= 1 || obs.quorumBlocked || ReadyBelow(climate, obs, w, i)
  }

  /** Every other desired ordinal was seen ready in the pass. */
  ghost predicate OthersSeen(plan: Plan, obs: Observed, w: World, i: nat) {
    forall j: nat :: 1 <= j <= plan.n && j != i ==> Seen(obs, w, j)
  }

  /**
    Outside a full outage the primary that was observed is never rolled as a
    replica, and neither is the recorded one when none was.
  */
  ghost predicate PrimarySpared(plan: Plan, obs: Observed, requested: set<nat>, w: World) {
    && (forall p :: obs.primary == Some(p) && p in w.deleted ==>
          (p in requested && p != plan.primary) || (obs.ready && OthersSeen(plan, obs, w, p)))
    && (obs.primary.None? && plan.primary in w.deleted ==> obs.ready && OthersSeen(plan, obs, w, plan.primary))
    && 0 !in w.deleted
  }

  /** Only a requested instance that is not the plan's primary loses its volume. */
  ghost predicate WipesJustified(plan: Plan, requested: set<nat>, before: seq<Wipe>, after: seq<Wipe>) {
    before <= after && forall k :: |before| <= k < |after| ==>
      after[k].inst in requested && after[k].inst != plan.primary
  }

  /** No bootstrap Job is started for the primary of an established cluster. */
  ghost predicate StartsJustified(plan: Plan, before: seq<nat>, after: seq<nat>) {
    before <= after && forall k :: |before| <= k < |after| ==> !(after[k] == plan.primary && plan.established)
  }

  /** A calm pass: fixed plan and primary, nothing failed and nothing to re-initialise. */
  ghost predicate CalmPass(g: Ground, plan: Plan, obs: Observed, reinit: set<nat>) {
    && plan.n == g.n && plan.primary == g.primary && 1 <= g.primary <= g.n
    && (obs.primary.None? || obs.primary == Some(g.primary))
    && Offline(plan) == g.offline
    && (forall i: nat :: plan.template(i) == g.want(i))
    && (!obs.fullOutage || obs.current.None?) && !obs.quorumBlocked && obs.failed == [] && reinit == {}
  }

  /** Some desired instance is not up, or was not reported ready. */
  ghost predicate Waiting(n: nat, obs: Observed, m: Slots) {
    exists j: nat :: 1 <= j <= n && Awaited(obs, m, j)
  }

  /** Gates and reconciles one ordinal of the loop; Ok(true) to go on to the next. */
  method WalkOne(api: Api, cluster: Cluster, plan: Plan, obs: Observed, i: nat, ghost k: nat, ghost requested: set<nat>)
    returns (r: Result<bool>, ghost next: nat)
    requires api.Valid() && 1 <= i <= plan.n && api.w.deleted == [] && cluster.reinit <= requested && !OutagePath(obs)
    requires !obs.quorumBlocked ==> Chain(api.g.climate, obs, api.w, k, i)
    requires api.g.climate.Calm? ==>
              CalmPass(api.g, plan, obs, cluster.reinit) && CalmLoop(api.g, obs, api.w.slots, i - 1, i)
    modifies api, cluster
    ensures api.Valid() && old(api.reached) <= api.reached
    ensures api.errors == old(api.errors) + (if r.Err? then 1 else 0)
    ensures cluster.reinit <= old(cluster.reinit)
    ensures RollJustified(api.g.climate, plan, obs, requested, api.w)
    ensures WipesJustified(plan, requested, old(api.w.wiped), api.w.wiped)
    ensures StartsJustified(plan, old(api.w.started), api.w.started)
    ensures api.w.deleted == [] || api.w.deleted == [i]
    ensures r == Ok(true) ==>
              api.w.deleted == [] && (!obs.quorumBlocked ==> Chain(api.g.climate, obs, api.w, next, i + 1))
    ensures r == Ok(true) && api.g.climate.Calm? ==> CalmLoop(api.g, obs, api.w.slots, i, i + 1)
    ensures r == Ok(false) && api.g.climate.Calm? && api.w.deleted == [] ==> Waiting(plan.n, obs, api.w.slots)
  {
    hide WorldInv, Obeys, EnvLe, OthersLe, Touched, MayRoll, Turn, Chain, Gated, CalmLoop, Waiting;
    next := k;
    if i > 1 {
      r, next := PassGate(api, plan, obs, i, k);
      if r.Err? || !r.value { return; }
    } else if !obs.quorumBlocked {
      ChainFirst(api.g.climate, obs, api.w, k);
    }
    var allow := i != Elected(plan, obs);
    if api.g.climate.Calm? {
      CalmFirst(api.g, obs, api.w.slots, i);
      if allow { CalmTurn(api.g, obs, api.w, i); }
    }
    ghost var before := api.w;
    var rolled;
    ghost var seen;
    rolled, seen := EnsureInstance(api, cluster, plan, i, allow);
    if !obs.quorumBlocked {
      EnsureExtends(api.g, obs, before, api.w, next, i);
      GatedKept(api.g.climate, obs, before, api.w, next, i);
    }
    if rolled.Err? { return Err, next; }
    if rolled.value {
      AwaitedWaits(plan.n, obs, api.w.slots, i);
      return Ok(false), next;
    }
    if api.g.climate.Calm? { CalmEnsured(api.g, obs, before, api.w, i); }
    r := Ok(true);
  }

  /** The gate in front of one ordinal, and what passing it adds to the chain. */
  method PassGate(api: Api, plan: Plan, obs: Observed, i: nat, ghost k: nat) returns (r: Result<bool>, ghost next: nat)
    requires api.Valid() && 1 < i <= plan.n
    requires !obs.quorumBlocked ==> Chain(api.g.climate, obs, api.w, k, i)
    requires api.g.climate.Calm? ==>
              api.g.n == plan.n && !obs.quorumBlocked && CalmLoop(api.g, obs, api.w.slots, i - 1, i)
    modifies api
    ensures api.Valid() && old(api.reached) <= api.reached
    ensures api.errors == old(api.errors) + (if r.Err? then 1 else 0)
    ensures api.w == old(api.w).(slots := api.w.slots, live := api.w.live)
    ensures r == Ok(true) && !obs.quorumBlocked ==> Gated(api.g.climate, obs, api.w, next, i)
    ensures r == Ok(true) && api.g.climate.Calm? ==> CalmLoop(api.g, obs, api.w.slots, i, i)
    ensures r == Ok(false) ==> Waiting(plan.n, obs, api.w.slots)
  {
    hide WorldInv, Obeys, EnvLe, Chain, Gated, CalmLoop, Waiting;
    next := k;
    ghost var before := api.w;
    ghost var pod, pvc, previous;
    r, pod, pvc, previous := GateInstance(api, obs, i);
    if r.Err? { return; }
    if !r.value {
      AwaitedWaits(plan.n, obs, api.w.slots, if Awaited(obs, api.w.slots, i - 1) then i - 1 else i);
      return;
    }
    if api.g.climate.Calm? {
      CalmStable(api.g, obs, before.slots, api.w.slots, i - 1, i);
      CalmGate(api.g, obs, api.w, i);
    }
    if !obs.quorumBlocked { next := GateExtends(api.g, obs, before, api.w, k, i); }
  }

  lemma AwaitedWaits(n: nat, obs: Observed, m: Slots, i: nat)
    requires 1 <= i <= n && Awaited(obs, m, i)
    ensures Waiting(n, obs, m)
  {
  }

  lemma ChainFirst(climate: Climate, obs: Observed, w: World, k: nat)
    requires Chain(climate, obs, w, k, 1)
    ensures k == 1 && Gated(climate, obs, w, k, 1)
  {
  }

  lemma CalmFirst(g: Ground, obs: Observed, m: Slots, i: nat)
    requires CalmLoop(g, obs, m, i, i) || (i == 1 && CalmLoop(g, obs, m, 0, 1))
    ensures CalmLoop(g, obs, m, i, i)
  {
  }

  /** If the instance's Pod was there to delete, its gate was passed with everything below it seen ready. */
  lemma GatedKept(climate: Climate, obs: Observed, v: World, w: World, k: nat, i: nat)
    requires Gated(climate, obs, v, k, i) && Touched(climate, v, w, i, true)
    ensures At(v.slots, i).pod.Some? && 1 < i ==> ReadyBelow(climate, obs, w, i)
  {
    if At(v.slots, i).pod.Some? && 1 < i {
      assert EnvSlot(climate, At(v.slots, k), At(w.slots, k));
      forall j: nat | k <= j < i ensures Seen(obs, w, j) { assert Seen(obs, v, j); }
      assert Gated(climate, obs, w, k, i);
    }
  }

  /** Rolls the elected primary, once every replica is handled and live-ready; Ok(true) if nothing is owed. */
  method RollPrimary(api: Api, cluster: Cluster, plan: Plan, obs: Observed, ghost requested: set<nat>)
    returns (r: Result<bool>)
    requires api.Valid() && api.w.deleted == [] && cluster.reinit <= requested && !OutagePath(obs)
    requires api.g.climate.Calm? ==> CalmPass(api.g, plan, obs, cluster.reinit) &&
                                     Witnessed(obs, api.w.slots) && Handled(api.g, api.w.slots, plan.n + 1)
    modifies api, cluster
    ensures api.Valid() && old(api.reached) <= api.reached
    ensures api.errors == old(api.errors) + (if r.Err? then 1 else 0)
    ensures RollJustified(api.g.climate, plan, obs, requested, api.w)
    ensures WipesJustified(plan, requested, old(api.w.wiped), api.w.wiped)
    ensures StartsJustified(plan, old(api.w.started), api.w.started)
    ensures r == Ok(true) ==> api.w.deleted == []
    ensures api.w.deleted == [] || (obs.ready && api.w.deleted == [Elected(plan, obs)])
    ensures r == Ok(true) && api.g.climate.Calm? ==>
              forall j: nat :: 1 <= j <= api.g.n ==> NotStale(At(api.w.slots, j), api.g.want(j))
    ensures NotStale(old(At(api.w.slots, Elected(plan, obs))), plan.template(Elected(plan, obs))) ==>
              api.w.deleted == []
    ensures r == Ok(false) && api.g.climate.Calm? && api.w.deleted == [] && obs.ready ==>
              Waiting(plan.n, obs, api.w.slots)
  {
    hide WorldInv, Obeys, EnvLe, OthersLe, Touched, MayRoll, Turn, Witnessed, Handled;
    var primary := Elected(plan, obs);
    ghost var before := api.w;
    var pending := InstancePendingRoll(api, plan, primary);
    if NotStale(At(before.slots, primary), plan.template(primary)) {
      StaysCurrent(api.g.climate, before.slots, api.w.slots, primary, plan.template(primary));
    }
    if api.g.climate.Calm? {
      CalmKept(api.g, obs, before.slots, api.w.slots, plan.n + 1);
      AllHandled(api.g, api.w.slots);
    }
    if pending.Err? { return Err; }
    if !pending.value { return Ok(true); }
    if obs.ready {
      before := api.w;
      var ready := ReplicasFullyReady(api, plan, obs, primary);
      PodStaysGone(api.g.climate, before.slots, api.w.slots, primary);
      if ready.Err? { return Err; }
      if ready.value {
        if api.g.climate.Calm? { CalmPrimaryTurn(api.g, api.w); }
        before := api.w;
        var rolled;
        ghost var seen;
        rolled, seen := EnsureInstance(api, cluster, plan, primary, true);
        SeenKept(api.g.climate, plan, obs, before, api.w, primary);
        if rolled.Err? { return Err; }
        assert api.g.climate.Calm? ==> rolled.value && |api.w.deleted| == 1;
      }
    }
    return Ok(false);
  }

  lemma StaysCurrent(climate: Climate, m: Slots, k: Slots, i: nat, template: int)
    requires EnvLe(climate, m, k) && NotStale(At(m, i), template)
    ensures NotStale(At(k, i), template)
  {
    assert EnvSlot(climate, At(m, i), At(k, i));
  }

  lemma AllHandled(g: Ground, m: Slots)
    requires Handled(g, m, g.n + 1)
    ensures forall j: nat :: 1 <= j <= g.n && j != g.primary ==> NotStale(At(m, j), g.want(j))
  {
  }

  lemma SeenKept(climate: Climate, plan: Plan, obs: Observed, v: World, w: World, i: nat)
    requires Touched(climate, v, w, i, true)
    ensures (forall j: nat :: 1 <= j <= plan.n && j != i ==> Seen(obs, v, j)) ==>
            (forall j: nat :: 1 <= j <= plan.n && j != i ==> Seen(obs, w, j))
  {
    if forall j: nat :: 1 <= j <= plan.n && j != i ==> Seen(obs, v, j) {
      forall j: nat | 1 <= j <= plan.n && j != i ensures Seen(obs, w, j) { assert Seen(obs, v, j); }
    }
  }

  /** Goes through the ordinals until one is rolled or held up; Ok(true) if none was. */
  method Walk(api: Api, cluster: Cluster, plan: Plan, obs: Observed, ghost requested: set<nat>)
    returns (r: Result<bool>)
    requires api.Valid() && api.w.deleted == [] && cluster.reinit <= requested && !OutagePath(obs)
    requires api.g.climate.Calm? ==>
               CalmPass(api.g, plan, obs, cluster.reinit) && CalmLoop(api.g, obs, api.w.slots, 0, 1)
    modifies api, cluster
    ensures api.Valid() && old(api.reached) <= api.reached
    ensures api.errors == old(api.errors) + (if r.Err? then 1 else 0)
    ensures cluster.reinit <= old(cluster.reinit)
    ensures RollJustified(api.g.climate, plan, obs, requested, api.w) && 0 !in api.w.deleted
    ensures WipesJustified(plan, requested, old(api.w.wiped), api.w.wiped)
    ensures StartsJustified(plan, old(api.w.started), api.w.started)
    ensures r == Ok(true) ==> api.w.deleted == []
    ensures r == Ok(true) && api.g.climate.Calm? ==>
              Witnessed(obs, api.w.slots) && Handled(api.g, api.w.slots, plan.n + 1)
    ensures r == Ok(false) && api.g.climate.Calm? && api.w.deleted == [] ==> Waiting(plan.n, obs, api.w.slots)
  {
    hide WorldInv, Obeys, EnvLe, OthersLe, Touched, MayRoll, Turn, Chain, Gated, CalmLoop, Witnessed, Handled, Waiting;
    ghost var k := 1;
    ChainStart(api.g.climate, obs, api.w);
    var i := 1;
    while i <= plan.n
      invariant api.Valid() && old(api.reached) <= api.reached && 1 <= i <= plan.n + 1
      invariant api.errors == old(api.errors)
      invariant cluster.reinit <= old(cluster.reinit) && api.w.deleted == []
      invariant WipesJustified(plan, requested, old(api.w.wiped), api.w.wiped)
      invariant StartsJustified(plan, old(api.w.started), api.w.started)
      invariant !obs.quorumBlocked ==> Chain(api.g.climate, obs, api.w, k, i)
      invariant api.g.climate.Calm? ==>
                  CalmPass(api.g, plan, obs, cluster.reinit) && CalmLoop(api.g, obs, api.w.slots, i - 1, i)
    {
      r, k := WalkOne(api, cluster, plan, obs, i, k, requested);
      if r.Err? || !r.value { return; }
      i := i + 1;
    }
    if api.g.climate.Calm? { CalmEnd(api.g, obs, api.w.slots, i); }
    return Ok(true);
  }

  /** A justified roll spares the primary. */
  lemma Spares(climate: Climate, plan: Plan, obs: Observed, requested: set<nat>, w: World)
    requires RollJustified(climate, plan, obs, requested, w) && 0 !in w.deleted
    ensures !OutagePath(obs) ==> PrimarySpared(plan, obs, requested, w)
  {
  }

  /**
    One provisioning pass. `requested` are the re-initialisations it acts on: the
    annotation, and what the pass itself added for crash-looping replicas.
  */
  method ReconcileInstances(api: Api, cluster: Cluster, plan: Plan, obs: Observed)
    returns (r: Result<bool>, ghost requested: set<nat>)
    requires api.Valid() && api.w.deleted == []
    requires api.g.climate.Calm? ==> CalmPass(api.g, plan, obs, cluster.reinit) && Witnessed(obs, api.w.slots)
    modifies api, cluster
    ensures api.Valid() && old(api.reached) <= api.reached
    ensures api.errors == old(api.errors) + (if r.Err? then 1 else 0)
    ensures RollJustified(api.g.climate, plan, obs, requested, api.w)
    ensures !OutagePath(obs) ==> PrimarySpared(plan, obs, requested, api.w)
    // In a full outage only the last-seen primary is brought up, and the pass is not done.
    ensures obs.fullOutage && obs.current.Some? ==>
              r != Ok(true) && (api.w.deleted == [] || api.w.deleted == [obs.current.value]) &&
              (api.w.started == old(api.w.started) || api.w.started == old(api.w.started) + [obs.current.value])
    ensures WipesJustified(plan, requested, old(api.w.wiped), api.w.wiped)
    ensures StartsJustified(plan, old(api.w.started), api.w.started)
    ensures forall i :: i in requested && i !in old(cluster.reinit) ==>
              AutoEligible(plan, obs, i) && ShownCrashing(api.reached, i)
    ensures r == Ok(true) ==> api.w.deleted == []
    ensures r == Ok(true) && api.g.climate.Calm? ==>
              forall j: nat :: 1 <= j <= api.g.n ==> NotStale(At(api.w.slots, j), api.g.want(j))
    // A calm pass that owes something rolls one instance, unless one is awaited.
    ensures r == Ok(false) && api.g.climate.Calm? && obs.ready ==>
              |api.w.deleted| == 1 || Waiting(plan.n, obs, api.w.slots)
  {
    hide WorldInv, Obeys, EnvLe, OthersLe, Touched, MayRoll, Turn, CalmLoop, Witnessed, Handled, Waiting;
    hide PrimarySpared, ShownCrashing;
    ghost var before := api.w;
    ghost var asked := cluster.reinit;
    var auto;
    ghost var read;
    auto, read := ReconcileAutoReinit(api, cluster, plan, obs);
    requested := cluster.reinit;
    ghost var known := api.reached;
    Spares(api.g.climate, plan, obs, requested, api.w);
    if auto.Err? { return Err, requested; }
    if OutagePath(obs) {
      var held;
      ghost var seen;
      held, seen := EnsureInstance(api, cluster, plan, obs.current.value, false);
      forall j | j in requested && j !in asked ensures ShownCrashing(api.reached, j) {
        StillShown(known, api.reached, j);
      }
      return if held.Err? then Err else Ok(false), requested;
    }
    if api.g.climate.Calm? { CalmStart(api.g, obs, before.slots, api.w.slots); }
    r := Walk(api, cluster, plan, obs, requested);
    forall j | j in requested && j !in asked ensures ShownCrashing(api.reached, j) {
      StillShown(known, api.reached, j);
    }
    Spares(api.g.climate, plan, obs, requested, api.w);
    if r.Err? || !r.value { return; }
    known := api.reached;
    if Elected(plan, obs) == 0 { return Ok(true), requested; }
    r := RollPrimary(api, cluster, plan, obs, requested);
    forall j | j in requested && j !in asked ensures ShownCrashing(api.reached, j) {
      StillShown(known, api.reached, j);
    }
    Spares(api.g.climate, plan, obs, requested, api.w);
  }

  lemma ChainStart(climate: Climate, obs: Observed, w: World)
    ensures Chain(climate, obs, w, 1, 1)
  {
  }

  lemma CalmStart(g: Ground, obs: Observed, m: Slots, k: Slots)
    requires g.climate.Calm? && Witnessed(obs, m) && EnvLe(g.climate, m, k)
    ensures CalmLoop(g, obs, k, 0, 1)
  {
    CalmStable(g, obs, m, k, 0, 1);
  }

  lemma CalmEnd(g: Ground, obs: Observed, m: Slots, i: nat)
    requires i > 0 && CalmLoop(g, obs, m, i - 1, i)
    ensures Witnessed(obs, m) && Handled(g, m, i)
  {
  }
}
