/**
  Whole runs: any number of reconcile passes, interleaved with the environment
  between any two API calls (internal/controller/cluster_controller.go:311-387).
*/
module Runs {
  import opened Wrappers
  import opened Store
  import opened ApiClient
  import opened Volumes
  import opened Rollout
  import opened ScaleDown

  /** What one reconcile starts from, besides the store. */
  datatype Input = Input(plan: Plan, reinit: set<nat>, obs: Observed, change: Change, resizes: set<nat>)

  /** Reads an instance's Pod and asks its manager: true if that answered and reported ready. */
  method PollOne(api: Api, i: nat) returns (r: Result<bool>)
    requires api.Valid()
    modifies api
    ensures api.Valid() && old(api.reached) <= api.reached
    ensures old(api.errors) <= api.errors && (r.Err? ==> old(api.errors) < api.errors)
    ensures EnvLe(api.g.climate, old(api.w.slots), api.w.slots)
    ensures api.w == old(api.w).(slots := api.w.slots, live := api.w.live)
    ensures r == Ok(true) ==> Serves(At(api.w.slots, i).pod)
    ensures r.Ok? && Serves(At(api.w.slots, i).pod) && api.errors == old(api.errors) ==> r == Ok(true)
    ensures WasPod(api.reached, i, At(api.w.slots, i).pod)
  {
    hide WorldInv, Obeys, EnvLe, OthersLe, Touched;
    var pod := api.GetPod(i);
    assert api.w in api.reached;
    if pod.Err? { return Err; }
    var answered: bool := *;
    if !answered { api.Refuse(); }
    return Ok(answered && Serves(pod.value));
  }

  predicate Serves(pod: Option<Pod>) {
    pod.Some? && pod.value.serving
  }

  /**
    Polls every desired instance: an instance is ok when its manager answered and
    reported ready at that moment.
  */
  method Observe(api: Api, plan: Plan, obs: Observed)
    returns (r: Result<Observed>, ghost read: map<nat, Option<Pod>>)
    requires api.Valid()
    modifies api
    ensures api.Valid() && old(api.reached) <= api.reached
    ensures old(api.errors) <= api.errors && (r.Err? ==> old(api.errors) < api.errors)
    ensures EnvLe(api.g.climate, old(api.w.slots), api.w.slots)
    ensures api.w == old(api.w).(slots := api.w.slots, live := api.w.live)
    ensures r.Ok? ==> Polled(api.reached, read, r.value.ok, plan.n + 1, api.errors == old(api.errors))
    ensures r.Ok? ==> r.value == obs.(ok := r.value.ok) && (api.g.climate.Calm? ==> Witnessed(r.value, api.w.slots))
  {
    hide WorldInv, Obeys, EnvLe, OthersLe, Touched, Polled, WasPod, Serves, Witnessed;
    ghost var start := api.w;
    EnvReflexive(api.g, api.w);
    NobodyPolled(api.reached, obs, api.w.slots);
    var ok: set<nat> := {};
    read := map[];
    for i := 1 to plan.n + 1
      invariant api.Valid() && old(api.reached) <= api.reached
      invariant old(api.errors) <= api.errors
      invariant EnvLe(api.g.climate, start.slots, api.w.slots)
      invariant api.w == start.(slots := api.w.slots, live := api.w.live)
      invariant api.g.climate.Calm? ==> Witnessed(obs.(ok := ok), api.w.slots)
      invariant Polled(api.reached, read, ok, i, api.errors == old(api.errors))
    {
      ghost var before, known, sure := api.w, api.reached, api.errors == old(api.errors);
      var up := PollOne(api, i);
      EnvTransitive(api.g.climate, start.slots, before.slots, api.w.slots);
      if up.Err? { return Err, read; }
      ghost var pod, still := At(api.w.slots, i).pod, api.errors == old(api.errors);
      if api.g.climate.Calm? { WitnessedNext(api.g.climate, obs, ok, before.slots, api.w.slots, i, up.value); }
      PolledNext(known, api.reached, read, ok, i, pod, up.value, sure, still);
      read := read[i := pod];
      ok := if up.value then ok + {i} else ok;
    }
    return Ok(obs.(ok := ok)), read;
  }

  /** An instance is ok only if its Pod was serving when read, and surely is if nothing failed to answer. */
  ghost predicate PolledAs(reached: set<World>, read: map<nat, Option<Pod>>, ok: set<nat>, i: nat, sure: bool) {
    && i in read && WasPod(reached, i, read[i]) && (i in ok ==> Serves(read[i]))
    && (sure && Serves(read[i]) ==> i in ok)
  }

  /** So it is of every instance below `n`, and no other one is ok. */
  ghost predicate Polled(reached: set<World>, read: map<nat, Option<Pod>>, ok: set<nat>, n: nat, sure: bool) {
    && (forall i: nat :: 1 <= i < n ==> PolledAs(reached, read, ok, i, sure))
    && (forall i :: i in ok ==> 1 <= i < n)
  }

  lemma PolledNext(known: set<World>, reached: set<World>, read: map<nat, Option<Pod>>, ok: set<nat>, i: nat,
                   pod: Option<Pod>, up: bool, was: bool, sure: bool)
    requires Polled(known, read, ok, i, was) && known <= reached && WasPod(reached, i, pod) && 1 <= i
    requires (up ==> Serves(pod)) && (sure ==> was && (Serves(pod) ==> up))
    ensures Polled(reached, read[i := pod], if up then ok + {i} else ok, i + 1, sure)
  {
    hide WasPod, Serves;
    var next, all := read[i := pod], if up then ok + {i} else ok;
    forall j: nat | 1 <= j < i + 1 ensures PolledAs(reached, next, all, j, sure) {
      if j < i {
        assert PolledAs(known, read, ok, j, was);
        StillWas(known, reached, j, read[j]);
      }
    }
  }

  lemma NobodyPolled(reached: set<World>, obs: Observed, m: Slots)
    ensures Polled(reached, map[], {}, 1, true) && Witnessed(obs.(ok := {}), m)
  {
  }

  lemma WitnessedNext(climate: Climate, obs: Observed, ok: set<nat>, m: Slots, k: Slots, i: nat, up: bool)
    requires climate.Calm? && Witnessed(obs.(ok := ok), m) && EnvLe(climate, m, k) && (up ==> Serves(At(k, i).pod))
    ensures Witnessed(obs.(ok := if up then ok + {i} else ok), k)
  {
    WitnessedKept(climate, obs.(ok := ok), m, k);
  }

  lemma WitnessedKept(climate: Climate, obs: Observed, m: Slots, k: Slots)
    requires climate.Calm? && Witnessed(obs, m) && EnvLe(climate, m, k)
    ensures Witnessed(obs, k)
  {
    forall j: nat ensures EnvSlot(climate, At(m, j), At(k, j)) {}
  }

  /**
    No volume that holds data is deleted in the pass, but one of an instance that
    was to be re-initialised; and never the plan's primary's.
  */
  ghost predicate DataSafe(plan: Plan, requested: set<nat>, before: seq<Wipe>, after: seq<Wipe>) {
    before <= after &&
    forall k :: |before| <= k < |after| ==>
      after[k].inst != plan.primary && (after[k].bootstrapped ==> after[k].inst in requested)
  }

  lemma DataSafeBoth(plan: Plan, change: Change, requested: set<nat>, u: World, v: World, w: World)
    requires RemovalsJustified(plan, change, u, v) && WipesJustified(plan, requested, v.wiped, w.wiped)
    requires StartsJustified(plan, v.started, w.started)
    ensures DataSafe(plan, requested, u.wiped, w.wiped) && StartsJustified(plan, u.started, w.started)
  {
  }

  /**
    One reconcile: scale down, observe, provision. `requested` are the
    re-initialisations it acted on, `seen` what it observed if it got that far.
  */
  method Reconcile(api: Api, input: Input)
    returns (ghost requested: set<nat>, ghost seen: Option<Observed>, ghost scaled: Result<()>)
    requires api.Valid()
    requires api.g.climate.Calm? ==> CalmPass(api.g, input.plan, input.obs, input.reinit)
    modifies api
    ensures api.Valid() && old(api.reached) <= api.reached
    ensures DataSafe(input.plan, requested, old(api.w.wiped), api.w.wiped)
    ensures StartsJustified(input.plan, old(api.w.started), api.w.started)
    ensures forall i :: i in requested && i !in input.reinit ==>
              AutoEligible(input.plan, input.obs, i) && ShownCrashing(api.reached, i)
    // A pass gets to observe and provision unless a call failed before; a scale-down that failed ends it.
    ensures seen.Some? ==> scaled.Ok?
    ensures old(api.errors) <= api.errors && (seen.None? ==> old(api.errors) < api.errors)
    ensures seen.Some? ==> seen.value == input.obs.(ok := seen.value.ok) &&
                           RollJustified(api.g.climate, input.plan, seen.value, requested, api.w) &&
                           (!OutagePath(seen.value) ==> PrimarySpared(input.plan, seen.value, requested, api.w))
  {
    hide WorldInv, Obeys, EnvLe, OthersLe, Touched, Witnessed;
    hide RemovalsJustified, WipesJustified, StartsJustified, DataSafe, RollJustified, PrimarySpared;
    seen := None;
    ghost var start := api.w;
    requested := input.reinit;
    var cluster := new Cluster(input.reinit);
    Unwritten(input.plan, input.change, requested, start, api.w);
    var down;
    ghost var skipped;
    down, skipped := ScaleDownReplicas(api, input.plan, input.change);
    scaled := down;
    Unwritten(input.plan, input.change, requested, api.w, api.w);
    DataSafeBoth(input.plan, input.change, requested, start, api.w, api.w);
    if down.Err? { return; }
    ghost var before := api.w;
    api.BeginPass();
    var observed;
    ghost var read;
    observed, read := Observe(api, input.plan, input.obs);
    if observed.Err? { return; }
    seen := Some(observed.value);
    var r;
    r, requested := ReconcileInstances(api, cluster, input.plan, observed.value);
    DataSafeBoth(input.plan, input.change, requested, start, before, api.w);
  }

  lemma Unwritten(plan: Plan, change: Change, requested: set<nat>, v: World, w: World)
    requires w.deleted == v.deleted && w.wiped == v.wiped && w.started == v.started
    ensures RemovalsJustified(plan, change, v, w) && WipesJustified(plan, requested, v.wiped, w.wiped)
    ensures StartsJustified(plan, v.started, w.started) && DataSafe(plan, requested, v.wiped, w.wiped)
  {
  }

  // ---- What holds in every reachable world ----

  /** An instance never has both a Pod and a bootstrap Job. */
  ghost predicate VolumesExclusive(w: World) {
    forall i: nat :: At(w.slots, i).pod.None? || At(w.slots, i).jobs == map[]
  }

  /** Every ready mark on a volume the operator created was earned by a completed Job stamped with that very volume. */
  ghost predicate MarksEarned(base: nat, w: World) {
    forall i: nat ::
      At(w.slots, i).pvc.Some? && At(w.slots, i).pvc.value.mark.Ready? && base <= At(w.slots, i).pvc.value.uid ==>
      At(w.slots, i).pvc.value.uid in At(w.slots, i).finished
  }

  /**
    A Pod of a re-initialised instance that was created on a volume runs on one
    created after the teardown completed and bootstrapped by its own Job.
  */
  ghost predicate RecloneFresh(w: World) {
    forall i: nat :: At(w.slots, i).floor > 0 && At(w.slots, i).pod.Some? && At(w.slots, i).pod.value.volume.Some? ==>
      At(w.slots, i).floor <= At(w.slots, i).pod.value.volume.value &&
      At(w.slots, i).pod.value.volume.value in At(w.slots, i).finished
  }

  ghost predicate AtMostOneDown(g: Ground, w: World) {
    forall i: nat, j: nat :: 1 <= i <= g.n && 1 <= j <= g.n && !Up(At(w.slots, i)) && !Up(At(w.slots, j)) ==> i == j
  }

  /** The primary is down only with every other instance up on its new template. */
  ghost predicate PrimaryLast(g: Ground, w: World) {
    1 <= g.primary <= g.n && !Up(At(w.slots, g.primary)) ==>
      forall j: nat :: 1 <= j <= g.n && j != g.primary ==> Up(At(w.slots, j)) && OnTemplate(At(w.slots, j), g.want(j))
  }

  lemma ReachableSafe(g: Ground, w: World)
    requires WorldInv(g, w)
    ensures VolumesExclusive(w) && MarksEarned(g.base, w) && RecloneFresh(w)
    ensures g.climate.Calm? ==> AtMostOneDown(g, w) && PrimaryLast(g, w)
  {
    forall i: nat ensures SlotInv(g, w.nextUid, At(w.slots, i)) {}
    if g.climate.Calm? && 1 <= g.primary <= g.n && !Up(At(w.slots, g.primary)) {
      assert w.down == g.primary && RolledBefore(g, w.slots, g.primary);
    }
  }

  /**
    Any run of reconciles from a sound world: in every world it goes through the
    volume guarantees hold, and in a calm run the rolling guarantees too.
  */
  method Run(api: Api, inputs: seq<Input>)
    requires api.Valid()
    requires api.g.climate.Calm? ==>
               forall k :: 0 <= k < |inputs| ==> CalmPass(api.g, inputs[k].plan, inputs[k].obs, inputs[k].reinit)
    modifies api
    ensures forall w :: w in api.reached ==> VolumesExclusive(w) && MarksEarned(api.g.base, w) && RecloneFresh(w)
    ensures api.g.climate.Calm? ==> forall w :: w in api.reached ==> AtMostOneDown(api.g, w) && PrimaryLast(api.g, w)
  {
    for k := 0 to |inputs|
      invariant api.Valid()
    {
      api.BeginResizes(inputs[k].resizes);
      ghost var requested, seen, scaled := Reconcile(api, inputs[k]);
    }
    forall w | w in api.reached
      ensures VolumesExclusive(w) && MarksEarned(api.g.base, w) && RecloneFresh(w)
      ensures api.g.climate.Calm? ==> AtMostOneDown(api.g, w) && PrimaryLast(api.g, w)
    {
      ReachableSafe(api.g, w);
    }
  }

  // ---- Resizes that begin below an instance that is down ----

  /** Only instance `d` is down, and what rolls before it is on its template. */
  ghost predicate OneDown(g: Ground, m: Slots, d: nat) {
    && 1 <= d <= g.n && !Up(At(m, d)) && TemplatesBefore(g, m, d)
    && (forall i: nat :: 1 <= i <= g.n && i != d ==> Up(At(m, i)))
  }

  /** The snapshot shows ready just what is up. */
  ghost predicate Accurate(g: Ground, obs: Observed, m: Slots) {
    !obs.quorumBlocked && forall i: nat :: 1 <= i <= g.n ==> (i in obs.ok <==> Up(At(m, i)))
  }

  /** A pass gets to replica `j` with nothing to roll below it, and recycles its Pod for a pending resize. */
  ghost predicate RolledForResize(g: Ground, obs: Observed, m: Slots, j: nat) {
    && 1 <= j <= g.n && j != g.primary && g.offline && Live(At(m, j)) && Pending(At(m, j))
    && (forall k: nat :: 1 <= k <= j ==> Gate(obs, m, k))
    && (forall k: nat :: 1 <= k < j && k != g.primary ==> !Owes(g, At(m, k), k))
  }

  lemma FirstPending(g: Ground, m: Slots, j: nat) returns (k: nat)
    requires 1 <= j && j != g.primary && Pending(At(m, j))
    ensures 1 <= k <= j && k != g.primary && Pending(At(m, k))
    ensures forall l: nat :: 1 <= l < k && l != g.primary ==> !Pending(At(m, l))
  {
    if l: nat :| 1 <= l < j && l != g.primary && Pending(At(m, l)) {
      k := FirstPending(g, m, l);
    } else {
      k := j;
    }
  }

  /**
    With an instance down, recycling a Pod for its resize keeps it the only one
    exactly if no resize is pending below it.
  */
  lemma ResizeSafeIff(g: Ground, obs: Observed, w: World, d: nat)
    requires OneDown(g, w.slots, d) && Accurate(g, obs, w.slots)
    ensures (forall j: nat :: RolledForResize(g, obs, w.slots, j) ==> AtMostOneDown(g, PodDeleted(w, j))) <==>
            NoResizeBelow(g, w.slots, d)
  {
    assert d < g.n ==> Up(At(w.slots, d + 1)) && !Gate(obs, w.slots, d + 1);
    if NoResizeBelow(g, w.slots, d) {
      forall j: nat | RolledForResize(g, obs, w.slots, j) ensures AtMostOneDown(g, PodDeleted(w, j)) {
        assert j == d;
        forall i: nat ensures i != d ==> At(PodDeleted(w, j).slots, i) == At(w.slots, i) {}
      }
    } else {
      var l: nat :| 1 <= l < d && l <= g.n && l != g.primary && Pending(At(w.slots, l));
      var j := FirstPending(g, w.slots, l);
      forall k: nat | 1 <= k <= j ensures Gate(obs, w.slots, k) {
        assert k > 1 ==> Up(At(w.slots, k - 1)) && k - 1 in obs.ok;
        assert Up(At(w.slots, k));
      }
      forall k: nat | 1 <= k < j && k != g.primary ensures !Owes(g, At(w.slots, k), k) {
        assert OnTemplate(At(w.slots, k), g.want(k));
      }
      assert Up(At(w.slots, j));
      assert RolledForResize(g, obs, w.slots, j);
      assert !Up(At(PodDeleted(w, j).slots, j)) && !Up(At(PodDeleted(w, j).slots, d));
    }
  }

  /** Instance 3 was rolled and is going; 2 is up on its template when its volume is grown. */
  const GROWN := World(map[
    1 := EMPTY.(pod := Some(PodOf(1, 7, false)), pvc := Some(VolumeOf(1))),
    2 := EMPTY.(pod := Some(PodOf(2, 7, false)), pvc := Some(VolumeOf(2).(resizePending := true))),
    3 := EMPTY.(pod := Some(PodOf(3, 6, true)), pvc := Some(VolumeOf(3)))], 10, {}, [], 3, [], [])

  lemma GrownVolumeTakesTwoDown(g: Ground, obs: Observed)
    requires g == Ground(10, Calm, 3, 1, i => 7, true) && Accurate(g, obs, GROWN.slots)
    ensures OneDown(g, GROWN.slots, 3) && RolledForResize(g, obs, GROWN.slots, 2) &&
            !AtMostOneDown(g, PodDeleted(GROWN, 2))
  {
    assert 1 in obs.ok;
    forall k: nat | 1 <= k <= 2 ensures Gate(obs, GROWN.slots, k) {}
    var end := PodDeleted(GROWN, 2);
    assert !Up(At(end.slots, 2)) && !Up(At(end.slots, 3));
  }

  // ---- A Pod without its volume ----

  /** A Pod with a volume under it runs on data exactly if that volume was there when it was created. */
  lemma OnDataIffCreatedOnIt(g: Ground, w: World, i: nat)
    requires WorldInv(g, w) && At(w.slots, i).pod.Some? && At(w.slots, i).pvc.Some?
    ensures Bootstrapped(At(w.slots, i).pvc.value) <==> At(w.slots, i).pod.value.volume.Some?
    ensures At(w.slots, i).pod.value.volume.Some? ==>
              At(w.slots, i).pod.value.volume.value == At(w.slots, i).pvc.value.uid
  {
    assert SlotInv(g, w.nextUid, At(w.slots, i));
  }

  /**
    A volume that is deleted between the check and the creation of the Pod leaves
    a Pod created on none, and the next pass puts an empty volume under it.
  */
  lemma VanishedVolumeLeavesEmptyOne(g: Ground, w: World, gone: World)
    requires g == Ground(10, Slow, 1, 1, i => 7, false)
    requires w == World(map[1 := EMPTY.(pvc := Some(VolumeOf(1)))], 10, {}, [], 0, [], []) &&
             gone == w.(slots := map[1 := EMPTY])
    ensures WorldInv(g, w) && EnvLe(Slow, w.slots, gone.slots)
    ensures var next := PvcCreated(PodCreated(gone, 1, 7), 1, 0);
            WorldInv(g, next) && At(next.slots, 1).pod.Some? && At(next.slots, 1).pvc.Some? &&
            !Bootstrapped(At(next.slots, 1).pvc.value)
  {
    forall i: nat ensures SlotInv(g, 10, At(w.slots, i)) && EnvSlot(Slow, At(w.slots, i), At(gone.slots, i)) {}
    EnvKeeps(g, w, gone);
    PodCreatedKeeps(g, gone, 1, 7);
    PvcCreatedKeeps(g, PodCreated(gone, 1, 7), 1, 0);
  }

  // ---- Why a pass needs slow Pods ----

  /**
    Everything below a rolled replica was seen ready exactly if everything below
    each Pod the pass recreated was; so it was if the environment does not make a
    new Pod Ready at once.
  */
  lemma ChainKept(climate: Climate, obs: Observed, w: World, i: nat)
    requires ReadyBelow(climate, obs, w, i)
    ensures AllSeen(obs, w, i) <==> forall k: nat :: 1 <= k < i && At(w.slots, k).born ==> AllSeen(obs, w, k)
    ensures !climate.Any? ==> AllSeen(obs, w, i)
  {
    var k: nat :| 1 <= k < i && Gated(climate, obs, w, k, i);
    assert AllSeen(obs, w, k) ==> AllSeen(obs, w, i);
  }

  ghost predicate AllSeen(obs: Observed, w: World, i: nat) {
    forall j: nat :: 1 <= j < i ==> Seen(obs, w, j)
  }

  function VolumeOf(i: nat): Pvc {
    Pvc(i, Ready, false, false, 0)
  }

  function PodOf(i: nat, template: int, going: bool): Pod {
    Pod(i, Some(i), template, going, true, true, false, false, 0)
  }

  /** Instance 1 is going, 2 lost its Pod, 3 is live on an old template. */
  const TWO_MISSING := World(map[
    1 := EMPTY.(pod := Some(PodOf(1, 7, true)), pvc := Some(VolumeOf(1))),
    2 := EMPTY.(pvc := Some(VolumeOf(2))),
    3 := EMPTY.(pod := Some(PodOf(3, 6, false)), pvc := Some(VolumeOf(3)))], 10, {}, [], 0, [], [])

  /**
    The chain does break otherwise. Instance 2's gate passes without a look at 1,
    since it restarts from its own data; if its new Pod turns Ready within the
    pass, and the snapshot still shows its predecessor ready, 3's gate passes too,
    and 3 goes down together with 1, which the pass never saw ready.
  */
  lemma InstantPodBreaksTheChain(g: Ground, obs: Observed, w: World, m: Slots, end: World)
    requires g == Ground(10, Any, 3, 1, i => 7, false) && 2 in obs.ok && !obs.quorumBlocked
    requires w == PodCreated(TWO_MISSING, 2, 7)
    requires m == w.slots[2 := At(w.slots, 2).(pod := Some(At(w.slots, 2).pod.value.(ready := true, serving := true)))]
    requires end == PodDeleted(w.(slots := m, live := {2}), 3)
    ensures WorldInv(g, TWO_MISSING) && Gate(obs, TWO_MISSING.slots, 2)
    ensures EnvLe(Any, w.slots, m) && !EnvLe(Slow, w.slots, m)
    ensures Gate(obs, m, 3) && Owes(g, At(m, 3), 3) && Seen(obs, end, 2) && At(end.slots, 2).born
    ensures !LiveReady(At(TWO_MISSING.slots, 1).pod.value) && !LiveReady(At(end.slots, 1).pod.value) &&
            !Seen(obs, end, 1)
    ensures !Up(At(end.slots, 1)) && !Up(At(end.slots, 3))
  {
    forall i: nat ensures SlotInv(g, 10, At(TWO_MISSING.slots, i)) {}
    forall i: nat ensures EnvSlot(Any, At(w.slots, i), At(m, i)) {}
    assert !EnvSlot(Slow, At(w.slots, 2), At(m, 2));
  }
}
