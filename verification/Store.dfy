/**
  The Kubernetes API as the operator sees it: Pods, bootstrap Jobs and data
  volumes per instance, with UIDs, two-phase deletion and a volume that outlives
  no Pod using it. Every call first lets the environment move (`EnvLe`), so a
  fact the operator read may be stale by the time it writes.

  Instances are identified by their ordinal.
*/
module Store {
  import opened Wrappers

  /** What a volume's pvc-status annotation says; Legacy is its absence. */
  datatype Mark = Legacy | Initializing | Ready

  /** `request` is the storage asked for; `resizePending` that a resize waits for the volume to be mounted anew. */
  datatype Pvc = Pvc(uid: nat, mark: Mark, terminating: bool, resizePending: bool, request: nat)

  predicate Bootstrapped(pvc: Pvc) { !pvc.mark.Initializing? }

  datatype Phase = Running | Complete | Failed

  /** A bootstrap Job; `volume` is the UID stamped on it. */
  datatype Job = Job(volume: nat, specHash: int, phase: Phase, terminating: bool)

  /** The bootstrap modes, in the order of the Job names they give. */
  datatype Mode = Import | InitDb | Join | Restore

  /** `volume` is the UID of the volume that existed when the Pod was created. */
  datatype Pod = Pod(uid: nat, volume: Option<nat>, template: int, terminating: bool,
                     ready: bool, serving: bool, crashLoop: bool, corrupt: bool, restarts: nat)

  predicate LiveReady(pod: Pod) { !pod.terminating && pod.ready }

  /**
    Everything the store holds for one instance. The last fields are history:
    `finished` are the volumes some Job stamped with them completed for, `floor`
    the next UID when the instance's re-initialisation last completed, and `born`
    whether this pass created its Pod.
  */
  datatype Slot = Slot(pod: Option<Pod>, jobs: map<Mode, Job>, pvc: Option<Pvc>,
                       finished: set<nat>, floor: nat, born: bool)

  const EMPTY := Slot(None, map[], None, {}, 0, false)

  type Slots = map<nat, Slot>

  function At(m: Slots, i: nat): Slot { if i in m then m[i] else EMPTY }

  datatype Wipe = Wipe(inst: nat, bootstrapped: bool)

  /**
    The store, and its history: `live` are the instances this pass read live and
    Ready, `deleted` the Pods it deleted, `down` the last Pod ever deleted (0 for
    none), `wiped` the volumes ever deleted and `started` the instances a
    bootstrap Job was ever created for.
  */
  datatype World = World(slots: Slots, nextUid: nat, live: set<nat>, deleted: seq<nat>, down: nat,
                         wiped: seq<Wipe>, started: seq<nat>)

  /**
    How much the environment may do. Any: whatever the store allows. Slow: a Pod
    created in a pass is not Ready within that pass. Calm: Slow, and nothing
    fails, so only what the operator deletes goes away; within a pass no resize
    becomes pending.
  */
  datatype Climate = Any | Slow | Calm

  /**
    The fixed surroundings of a run: volumes below `base` predate it; `n`,
    `primary` and `want` are the desired count, the elected primary and the
    desired Pod templates, and `offline` whether a resize needs a new mount. Those
    matter in a calm run.
  */
  datatype Ground = Ground(base: nat, climate: Climate, n: nat, primary: nat, want: nat -> int, offline: bool)

  // ---- What the environment may do to one instance ----

  predicate PodLe(p: Pod, q: Pod) {
    q.uid == p.uid && q.volume == p.volume && q.template == p.template && (p.terminating ==> q.terminating)
  }

  predicate JobLe(j: Job, k: Job) {
    k.volume == j.volume && k.specHash == j.specHash && (j.terminating ==> k.terminating) &&
    (j.phase.Running? || k.phase == j.phase)
  }

  predicate PvcLe(p: Pvc, q: Pvc) {
    q.uid == p.uid && q.mark == p.mark && (p.terminating ==> q.terminating) && p.request <= q.request
  }

  /** Nothing is created; what goes, goes for good; a volume stays while its Pod does. */
  ghost predicate SlotLe(s: Slot, t: Slot) {
    && (t.pod.Some? ==> s.pod.Some? && PodLe(s.pod.value, t.pod.value))
    && (forall m :: m in t.jobs ==> m in s.jobs && JobLe(s.jobs[m], t.jobs[m]))
    && (t.pvc.Some? ==> s.pvc.Some? && PvcLe(s.pvc.value, t.pvc.value))
    && (s.pvc.Some? && t.pvc.None? ==> t.pod.None?)
    && s.finished <= t.finished
    && (forall u :: u in t.finished && u !in s.finished ==>
          exists m :: m in s.jobs && s.jobs[m].volume == u && s.jobs[m].phase.Running?)
    && (forall m :: m in t.jobs && t.jobs[m].phase.Complete? ==> t.jobs[m].volume in t.finished)
    && t.floor == s.floor && t.born == s.born
  }

  predicate SlowLe(t: Slot) { t.born && t.pod.Some? ==> !t.pod.value.ready }

  predicate Pending(s: Slot) { s.pvc.Some? && s.pvc.value.resizePending }

  predicate CalmLe(s: Slot, t: Slot) {
    && (s.pod.Some? && !s.pod.value.terminating ==>
          t.pod.Some? && !t.pod.value.terminating &&
          (s.pod.value.ready ==> t.pod.value.ready) && (s.pod.value.serving ==> t.pod.value.serving))
    && t.jobs == s.jobs
    && (s.pvc.Some? ==> t.pvc.Some? && t.pvc.value.terminating == s.pvc.value.terminating)
    && (Pending(t) ==> Pending(s))
  }

  ghost predicate EnvSlot(climate: Climate, s: Slot, t: Slot) {
    SlotLe(s, t) && (climate.Any? || SlowLe(t)) && (climate.Calm? ==> CalmLe(s, t))
  }

  /** Any number of environment steps. */
  ghost predicate EnvLe(climate: Climate, m: Slots, k: Slots) {
    forall i: nat :: EnvSlot(climate, At(m, i), At(k, i))
  }

  // ---- What every reachable world satisfies ----

  /** The volume is RWO: a Pod and a bootstrap Job never coexist. */
  predicate Exclusive(s: Slot) { s.pod.Some? ==> s.jobs == map[] }

  /** A volume the operator created is marked ready only if a Job stamped with it completed. */
  predicate Provenance(base: nat, s: Slot) {
    s.pvc.Some? && base <= s.pvc.value.uid ==>
      !s.pvc.value.mark.Legacy? && (s.pvc.value.mark.Ready? ==> s.pvc.value.uid in s.finished)
  }

  /** A Pod created on a volume still runs on it, and it is bootstrapped. */
  predicate OnItsVolume(s: Slot) {
    s.pod.Some? && s.pod.value.volume.Some? ==>
      s.pvc.Some? && s.pvc.value.uid == s.pod.value.volume.value && Bootstrapped(s.pvc.value)
  }

  /** A Pod created on no volume has none, or one no Job has bootstrapped. */
  predicate BareIfNone(s: Slot) {
    s.pod.Some? && s.pod.value.volume.None? && s.pvc.Some? ==> s.pvc.value.mark.Initializing?
  }

  /** After a completed re-initialisation, no older volume is left. */
  predicate AboveFloor(g: Ground, nextUid: nat, s: Slot) {
    (s.floor == 0 || g.base <= s.floor <= nextUid) && (s.pvc.Some? ==> s.floor <= s.pvc.value.uid < nextUid)
  }

  predicate JobsHonest(nextUid: nat, s: Slot) {
    forall m :: m in s.jobs ==>
      s.jobs[m].volume < nextUid && (s.jobs[m].phase.Complete? ==> s.jobs[m].volume in s.finished)
  }

  predicate SlotInv(g: Ground, nextUid: nat, s: Slot) {
    && Exclusive(s) && Provenance(g.base, s) && OnItsVolume(s) && BareIfNone(s)
    && AboveFloor(g, nextUid, s) && JobsHonest(nextUid, s)
    && (g.climate.Any? || SlowLe(s))
  }

  predicate Up(s: Slot) { s.pod.Some? && LiveReady(s.pod.value) && s.pod.value.serving }

  /** The instance has no live Pod, or one on the wanted template. */
  predicate NotStale(s: Slot, template: int) {
    s.pod.Some? && !s.pod.value.terminating ==> s.pod.value.template == template
  }

  predicate OnTemplate(s: Slot, template: int) {
    s.pod.Some? && !s.pod.value.terminating && s.pod.value.template == template
  }

  predicate Live(s: Slot) { s.pod.Some? && !s.pod.value.terminating }

  predicate Settled(s: Slot) {
    s.jobs == map[] && s.pvc.Some? && s.pvc.value.mark.Ready? && !s.pvc.value.terminating
  }

  /** What scale-down finds nothing to do for: at most a volume with data. */
  predicate Vacant(s: Slot) {
    s.pod.None? && s.jobs == map[] && (s.pvc.Some? ==> Bootstrapped(s.pvc.value))
  }

  /** The instance is due to be rolled: its template changed, or a resize waits for a new mount. */
  predicate Owes(g: Ground, s: Slot, i: nat) {
    Live(s) && (s.pod.value.template != g.want(i) || (g.offline && Pending(s)))
  }

  /** Whatever rolls before `i` is on its new template: the replicas below it, or all of them for the primary. */
  ghost predicate TemplatesBefore(g: Ground, m: Slots, i: nat) {
    forall j: nat :: 1 <= j <= g.n && j != g.primary && j != i && (j < i || i == g.primary) ==>
      OnTemplate(At(m, j), g.want(j))
  }

  /** No replica below `i` waits for a new mount. */
  ghost predicate NoResizeBelow(g: Ground, m: Slots, i: nat) {
    forall j: nat :: 1 <= j < i && j <= g.n && j != g.primary && g.offline ==> !Pending(At(m, j))
  }

  ghost predicate RolledBefore(g: Ground, m: Slots, i: nat) {
    TemplatesBefore(g, m, i) && NoResizeBelow(g, m, i)
  }

  /**
    A calm run's invariant: there is nothing above the count, at most the last
    rolled instance is not up, it is on the new template as soon as it is back,
    and it was its turn.
  */
  ghost predicate RollInv(g: Ground, m: Slots, down: nat) {
    && (forall i: nat :: if 1 <= i <= g.n then Settled(At(m, i)) else Vacant(At(m, i)))
    && (forall i: nat :: 1 <= i <= g.n && i != down ==> Up(At(m, i)))
    && (down != 0 ==> 1 <= down <= g.n && NotStale(At(m, down), g.want(down)) && RolledBefore(g, m, down))
  }

  ghost predicate WorldInv(g: Ground, w: World) {
    && g.base <= w.nextUid
    && (forall i: nat :: SlotInv(g, w.nextUid, At(w.slots, i)))
    && (g.climate.Calm? ==> RollInv(g, w.slots, w.down))
  }

  lemma EnvReflexive(g: Ground, w: World)
    requires WorldInv(g, w)
    ensures EnvLe(g.climate, w.slots, w.slots)
  {
  }

  lemma SlotTransitive(a: Slot, b: Slot, c: Slot)
    requires SlotLe(a, b) && SlotLe(b, c)
    ensures SlotLe(a, c)
  {
  }

  lemma EnvTransitive(climate: Climate, a: Slots, b: Slots, c: Slots)
    requires EnvLe(climate, a, b) && EnvLe(climate, b, c)
    ensures EnvLe(climate, a, c)
  {
    forall i: nat ensures EnvSlot(climate, At(a, i), At(c, i)) {
      assert EnvSlot(climate, At(a, i), At(b, i)) && EnvSlot(climate, At(b, i), At(c, i));
    }
  }

  /** No interleaving of environment steps leaves the invariant. */
  lemma EnvKeeps(g: Ground, v: World, w: World)
    requires WorldInv(g, v) && EnvLe(g.climate, v.slots, w.slots) && w.nextUid == v.nextUid && w.down == v.down
    ensures WorldInv(g, w)
  {
    forall i: nat ensures SlotInv(g, w.nextUid, At(w.slots, i)) {
      assert EnvSlot(g.climate, At(v.slots, i), At(w.slots, i)) && SlotInv(g, v.nextUid, At(v.slots, i));
    }
    if g.climate.Calm? {
      EnvKeepsRoll(g, v.slots, w.slots, v.down);
    }
  }

  lemma EnvKeepsRoll(g: Ground, m: Slots, k: Slots, down: nat)
    requires g.climate.Calm? && RollInv(g, m, down) && EnvLe(g.climate, m, k)
    ensures RollInv(g, k, down)
  {
    forall i: nat ensures CalmLe(At(m, i), At(k, i)) && SlotLe(At(m, i), At(k, i)) {
      assert EnvSlot(g.climate, At(m, i), At(k, i));
    }
  }

  /** It is instance `i`'s turn to go down: every other one is up, and what rolls before it has. */
  ghost predicate Turn(g: Ground, m: Slots, i: nat) {
    && 1 <= i <= g.n
    && (forall j: nat :: 1 <= j <= g.n && j != i ==> Up(At(m, j)))
    && RolledBefore(g, m, i)
  }

  lemma TurnStable(g: Ground, m: Slots, k: Slots, i: nat)
    requires g.climate.Calm? && Turn(g, m, i) && EnvLe(g.climate, m, k)
    ensures Turn(g, k, i)
  {
    forall j: nat ensures CalmLe(At(m, j), At(k, j)) && SlotLe(At(m, j), At(k, j)) {
      assert EnvSlot(g.climate, At(m, j), At(k, j));
    }
  }

  /** Rolling the instance, if it is due, would be its turn. */
  ghost predicate MayRoll(g: Ground, m: Slots, i: nat) {
    Owes(g, At(m, i), i) ==> Turn(g, m, i)
  }

  lemma MayRollStable(g: Ground, m: Slots, k: Slots, i: nat)
    requires g.climate.Calm? && MayRoll(g, m, i) && EnvLe(g.climate, m, k)
    ensures MayRoll(g, k, i)
  {
    assert EnvSlot(g.climate, At(m, i), At(k, i));
    if Turn(g, m, i) {
      TurnStable(g, m, k, i);
    }
  }

  /** Rolling the instance, if it has a live Pod, would be its turn. */
  ghost predicate InTurn(g: Ground, m: Slots, i: nat) {
    Live(At(m, i)) ==> Turn(g, m, i)
  }

  lemma InTurnStable(g: Ground, m: Slots, k: Slots, i: nat)
    requires g.climate.Calm? && InTurn(g, m, i) && EnvLe(g.climate, m, k)
    ensures InTurn(g, k, i)
  {
    assert EnvSlot(g.climate, At(m, i), At(k, i));
    if Turn(g, m, i) {
      TurnStable(g, m, k, i);
    }
  }

  // ---- What the operator's writes do ----

  function Put(w: World, i: nat, s: Slot): World { w.(slots := w.slots[i := s]) }

  /** A write to one instance keeps the invariant if that instance's slot does. */
  lemma PutKeeps(g: Ground, w: World, i: nat, s: Slot, v: World)
    requires WorldInv(g, w)
    requires v.slots == w.slots[i := s] && w.nextUid <= v.nextUid
    requires SlotInv(g, v.nextUid, s)
    requires g.climate.Calm? ==> RollInv(g, v.slots, v.down)
    ensures WorldInv(g, v)
  {
    forall j: nat ensures SlotInv(g, v.nextUid, At(v.slots, j)) {
      assert SlotInv(g, w.nextUid, At(w.slots, j));
    }
  }

  function PodCreated(w: World, i: nat, template: int): World {
    var s := At(w.slots, i);
    var volume := if s.pvc.Some? then Some(s.pvc.value.uid) else None;
    var pod := Pod(w.nextUid, volume, template, false, false, false, false, false, 0);
    Put(w, i, s.(pod := Some(pod), born := true)).(nextUid := w.nextUid + 1)
  }

  lemma PodCreatedKeeps(g: Ground, w: World, i: nat, template: int)
    requires WorldInv(g, w)
    requires At(w.slots, i).pod.None? && At(w.slots, i).jobs == map[]
    requires At(w.slots, i).pvc.Some? ==> Bootstrapped(At(w.slots, i).pvc.value)
    requires g.climate.Calm? ==> 1 <= i <= g.n && template == g.want(i)
    ensures WorldInv(g, PodCreated(w, i, template))
  {
    var v := PodCreated(w, i, template);
    assert SlotInv(g, w.nextUid, At(w.slots, i));
    if g.climate.Calm? {
      assert !Up(At(w.slots, i)) && i == w.down;
      forall j: nat ensures j != i ==> At(v.slots, j) == At(w.slots, j) {}
      assert RollInv(g, v.slots, v.down);
    }
    PutKeeps(g, w, i, At(v.slots, i), v);
  }

  function PodDeleted(w: World, i: nat): World
    requires At(w.slots, i).pod.Some?
  {
    var s := At(w.slots, i);
    if s.pod.value.terminating then w
    else Put(w, i, s.(pod := Some(s.pod.value.(terminating := true)))).(deleted := w.deleted + [i], down := i)
  }

  lemma PodDeletedKeeps(g: Ground, w: World, i: nat)
    requires WorldInv(g, w) && At(w.slots, i).pod.Some?
    requires g.climate.Calm? ==> Turn(g, w.slots, i)
    ensures WorldInv(g, PodDeleted(w, i))
  {
    var v := PodDeleted(w, i);
    assert SlotInv(g, w.nextUid, At(w.slots, i));
    if g.climate.Calm? {
      forall j: nat ensures j != i ==> At(v.slots, j) == At(w.slots, j) {}
      assert RollInv(g, v.slots, v.down);
    }
    if v != w {
      PutKeeps(g, w, i, At(v.slots, i), v);
    }
  }

  function PvcCreated(w: World, i: nat, request: nat): World {
    var pvc := Pvc(w.nextUid, Initializing, false, false, request);
    Put(w, i, At(w.slots, i).(pvc := Some(pvc))).(nextUid := w.nextUid + 1)
  }

  lemma PvcCreatedKeeps(g: Ground, w: World, i: nat, request: nat)
    requires WorldInv(g, w) && At(w.slots, i).pvc.None? && !g.climate.Calm?
    ensures WorldInv(g, PvcCreated(w, i, request))
  {
    var v := PvcCreated(w, i, request);
    assert SlotInv(g, w.nextUid, At(w.slots, i));
    PutKeeps(g, w, i, At(v.slots, i), v);
  }

  function PvcGrown(w: World, i: nat, request: nat): World
    requires At(w.slots, i).pvc.Some?
  {
    var s := At(w.slots, i);
    Put(w, i, s.(pvc := Some(s.pvc.value.(request := request))))
  }

  lemma PvcGrownKeeps(g: Ground, w: World, i: nat, request: nat)
    requires WorldInv(g, w) && At(w.slots, i).pvc.Some?
    ensures WorldInv(g, PvcGrown(w, i, request))
  {
    var v := PvcGrown(w, i, request);
    assert SlotInv(g, w.nextUid, At(w.slots, i));
    if g.climate.Calm? {
      forall j: nat ensures j != i ==> At(v.slots, j) == At(w.slots, j) {}
      assert RollInv(g, v.slots, v.down);
    }
    PutKeeps(g, w, i, At(v.slots, i), v);
  }

  function PvcMarked(w: World, i: nat): World
    requires At(w.slots, i).pvc.Some?
  {
    var s := At(w.slots, i);
    Put(w, i, s.(pvc := Some(s.pvc.value.(mark := Ready))))
  }

  lemma PvcMarkedKeeps(g: Ground, w: World, i: nat)
    requires WorldInv(g, w) && At(w.slots, i).pvc.Some?
    requires At(w.slots, i).pvc.value.uid < g.base || At(w.slots, i).pvc.value.uid in At(w.slots, i).finished
    requires At(w.slots, i).pod.Some? ==> At(w.slots, i).pod.value.volume.Some?
    ensures WorldInv(g, PvcMarked(w, i))
  {
    var v := PvcMarked(w, i);
    assert SlotInv(g, w.nextUid, At(w.slots, i));
    if g.climate.Calm? {
      forall j: nat ensures j != i ==> At(v.slots, j) == At(w.slots, j) {}
      assert RollInv(g, v.slots, v.down);
    }
    PutKeeps(g, w, i, At(v.slots, i), v);
  }

  function PvcDeleted(w: World, i: nat): World
    requires At(w.slots, i).pvc.Some?
  {
    var s := At(w.slots, i);
    if s.pvc.value.terminating then w
    else Put(w, i, s.(pvc := Some(s.pvc.value.(terminating := true))))
         .(wiped := w.wiped + [Wipe(i, Bootstrapped(s.pvc.value))])
  }

  lemma PvcDeletedKeeps(g: Ground, w: World, i: nat)
    requires WorldInv(g, w) && At(w.slots, i).pvc.Some? && !g.climate.Calm?
    ensures WorldInv(g, PvcDeleted(w, i))
  {
    var v := PvcDeleted(w, i);
    assert SlotInv(g, w.nextUid, At(w.slots, i));
    if v != w {
      PutKeeps(g, w, i, At(v.slots, i), v);
    }
  }

  function JobCreated(w: World, i: nat, mode: Mode, volume: nat, specHash: int): World {
    var s := At(w.slots, i);
    Put(w, i, s.(jobs := s.jobs[mode := Job(volume, specHash, Running, false)])).(started := w.started + [i])
  }

  lemma JobCreatedKeeps(g: Ground, w: World, i: nat, mode: Mode, volume: nat, specHash: int)
    requires WorldInv(g, w) && !g.climate.Calm?
    requires At(w.slots, i).pod.None? && volume < w.nextUid
    ensures WorldInv(g, JobCreated(w, i, mode, volume, specHash))
  {
    var v := JobCreated(w, i, mode, volume, specHash);
    assert SlotInv(g, w.nextUid, At(w.slots, i));
    PutKeeps(g, w, i, At(v.slots, i), v);
  }

  function JobDeleted(w: World, i: nat, mode: Mode): World
    requires mode in At(w.slots, i).jobs
  {
    var s := At(w.slots, i);
    Put(w, i, s.(jobs := s.jobs[mode := s.jobs[mode].(terminating := true)]))
  }

  lemma JobDeletedKeeps(g: Ground, w: World, i: nat, mode: Mode)
    requires WorldInv(g, w) && mode in At(w.slots, i).jobs && !g.climate.Calm?
    ensures WorldInv(g, JobDeleted(w, i, mode))
  {
    var v := JobDeleted(w, i, mode);
    assert SlotInv(g, w.nextUid, At(w.slots, i));
    PutKeeps(g, w, i, At(v.slots, i), v);
  }

  /** The instance's re-initialisation completed: nothing of it is left. */
  function RequestCleared(w: World, i: nat): World {
    Put(w, i, At(w.slots, i).(floor := w.nextUid))
  }

  lemma RequestClearedKeeps(g: Ground, w: World, i: nat)
    requires WorldInv(g, w) && !g.climate.Calm?
    requires At(w.slots, i).pod.None? && At(w.slots, i).jobs == map[] && At(w.slots, i).pvc.None?
    ensures WorldInv(g, RequestCleared(w, i))
  {
    var v := RequestCleared(w, i);
    assert SlotInv(g, w.nextUid, At(w.slots, i));
    PutKeeps(g, w, i, At(v.slots, i), v);
  }

  /** Between passes resizes become pending, and an instance that is back up is forgotten. */
  function ResizesBegun(w: World, begun: set<nat>): World {
    w.(slots := map i | i in w.slots :: if i in begun && w.slots[i].pvc.Some? then
                  w.slots[i].(pvc := Some(w.slots[i].pvc.value.(resizePending := true))) else w.slots[i],
       down := if Up(At(w.slots, w.down)) then 0 else w.down)
  }

  /** A resize may begin where no instance above is down; for the primary, which is not rolled for one, anywhere. */
  predicate MayBegin(g: Ground, w: World, i: nat) {
    w.down <= i || Up(At(w.slots, w.down)) || i == g.primary
  }

  lemma ResizesBegunKeeps(g: Ground, w: World, begun: set<nat>)
    requires WorldInv(g, w)
    requires g.climate.Calm? ==> forall i :: i in begun ==> MayBegin(g, w, i)
    ensures WorldInv(g, ResizesBegun(w, begun))
  {
    var v := ResizesBegun(w, begun);
    forall j: nat ensures SlotInv(g, v.nextUid, At(v.slots, j)) {
      assert SlotInv(g, w.nextUid, At(w.slots, j));
    }
    if g.climate.Calm? {
      ResizesBegunKeepsRoll(g, w, begun);
    }
  }

  lemma ResizesBegunKeepsRoll(g: Ground, w: World, begun: set<nat>)
    requires RollInv(g, w.slots, w.down) && forall i :: i in begun ==> MayBegin(g, w, i)
    ensures RollInv(g, ResizesBegun(w, begun).slots, ResizesBegun(w, begun).down)
  {
    var v := ResizesBegun(w, begun);
    forall j: nat
      ensures At(v.slots, j) == At(w.slots, j) || (j in begun && At(w.slots, j).pvc.Some? &&
                At(v.slots, j) == At(w.slots, j).(pvc := Some(At(w.slots, j).pvc.value.(resizePending := true)))) {}
    if v.down != 0 {
      assert NoResizeBelow(g, v.slots, v.down);
    }
  }

  /** The pass-local history starts over. */
  function PassBegun(w: World): World {
    w.(slots := map i | i in w.slots :: w.slots[i].(born := false), live := {}, deleted := [])
  }

  lemma PassBegunKeeps(g: Ground, w: World)
    requires WorldInv(g, w)
    ensures WorldInv(g, PassBegun(w))
  {
    var v := PassBegun(w);
    forall j: nat ensures At(v.slots, j) == At(w.slots, j).(born := false) && SlotInv(g, v.nextUid, At(v.slots, j)) {
      assert SlotInv(g, w.nextUid, At(w.slots, j));
    }
  }
}
