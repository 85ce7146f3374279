/**
  The API client the operator drives the store through. Before every call the
  environment moves; any call may fail, and a failed write may still have taken
  effect, so an operator method may be cut short anywhere.
*/
module ApiClient {
  import opened Wrappers
  import opened Store

  /** What the instances become before the operator's `clock`-th call. */
  type Environment = (Slots, nat) -> Slots

  ghost predicate Obeys(g: Ground, env: Environment) {
    forall w: World, clock: nat :: WorldInv(g, w) ==> EnvLe(g.climate, w.slots, env(w.slots, clock))
  }

  /** Every instance but `i` only saw the environment. */
  ghost predicate OthersLe(climate: Climate, m: Slots, k: Slots, i: nat) {
    forall j: nat :: j != i ==> EnvSlot(climate, At(m, j), At(k, j))
  }

  /**
    Only instance `i` may differ by more than the environment, its Pod is the one
    it had, or a new one, and in a calm run no resize of it began.
  */
  ghost predicate Touched(climate: Climate, v: World, w: World, i: nat, creates: bool) {
    && OthersLe(climate, v.slots, w.slots, i)
    && v.live <= w.live
    && (At(v.slots, i).born ==> At(w.slots, i).born)
    && (climate.Calm? && Pending(At(w.slots, i)) ==> Pending(At(v.slots, i)))
    && (At(w.slots, i).pod.Some? ==>
          (creates && At(w.slots, i).born) || SamePod(climate, At(v.slots, i).pod, At(w.slots, i).pod.value))
  }

  predicate SamePod(climate: Climate, before: Option<Pod>, pod: Pod) {
    && before.Some? && PodLe(before.value, pod)
    && (climate.Calm? && !pod.terminating && before.value.serving ==> pod.serving)
  }

  lemma TouchedReflexive(climate: Climate, g: Ground, w: World, i: nat)
    requires WorldInv(g, w) && climate == g.climate
    ensures Touched(climate, w, w, i, false)
  {
    EnvReflexive(g, w);
  }

  lemma TouchedTransitive(climate: Climate, u: World, v: World, w: World, i: nat, creates: bool)
    requires Touched(climate, u, v, i, false) && Touched(climate, v, w, i, creates)
    ensures Touched(climate, u, w, i, creates)
  {
    forall j: nat | j != i ensures EnvSlot(climate, At(u.slots, j), At(w.slots, j)) {
      assert EnvSlot(climate, At(u.slots, j), At(v.slots, j)) && EnvSlot(climate, At(v.slots, j), At(w.slots, j));
    }
  }

  lemma EnvTouches(g: Ground, v: World, w: World, i: nat)
    requires EnvLe(g.climate, v.slots, w.slots) && v.live <= w.live
    ensures Touched(g.climate, v, w, i, false) && EnvSlot(g.climate, At(v.slots, i), At(w.slots, i))
  {
    assert EnvSlot(g.climate, At(v.slots, i), At(w.slots, i));
  }

  /** A write to one instance that leaves its Pod alone, after the environment moved. */
  lemma WriteTouches(climate: Climate, v: World, w: World, i: nat, u: World)
    requires EnvLe(climate, v.slots, w.slots) && v.live <= w.live == u.live
    requires u.slots == w.slots || u.slots == w.slots[i := At(u.slots, i)]
    requires At(u.slots, i).pod == At(w.slots, i).pod && At(u.slots, i).born == At(w.slots, i).born
    requires climate.Calm? && Pending(At(u.slots, i)) ==> Pending(At(w.slots, i))
    ensures Touched(climate, v, u, i, false)
    ensures EnvSlot(climate, At(v.slots, i), At(u.slots, i)) ==> EnvLe(climate, v.slots, u.slots)
  {
    assert EnvSlot(climate, At(v.slots, i), At(w.slots, i));
    forall j: nat | j != i ensures At(u.slots, j) == At(w.slots, j) &&
    EnvSlot(climate, At(v.slots, j), At(w.slots, j)) {}
  }

  /** Marking the volume and letting the environment move come to the same in either order. */
  lemma MarkCommutes(climate: Climate, s: Slot, t: Slot)
    requires EnvSlot(climate, s, t) && t.pvc.Some?
    ensures var marked := Some(t.pvc.value.(mark := Ready)); EnvSlot(climate, s.(pvc := marked), t.(pvc := marked))
    ensures s.pvc.Some? && s.pvc.value.uid == t.pvc.value.uid && s.pvc.value.request <= t.pvc.value.request
  {
  }

  lemma MarkedAs(w: World, i: nat)
    requires At(w.slots, i).pvc.Some?
    ensures PvcMarked(w, i) == w.(slots := w.slots[i := At(PvcMarked(w, i).slots, i)])
    ensures At(PvcMarked(w, i).slots, i) == At(w.slots, i).(pvc := Some(At(w.slots, i).pvc.value.(mark := Ready)))
  {
  }

  lemma SameVolume(climate: Climate, s: Slot, t: Slot)
    requires EnvSlot(climate, s, t)
    ensures t.pod.Some? ==> s.pod.Some? && s.pod.value.volume == t.pod.value.volume
    ensures EnvSlot(climate, s.(pvc := t.pvc), t)
    ensures t.pvc.Some? ==>
              s.pvc.Some? && s.pvc.value.uid == t.pvc.value.uid && s.pvc.value.request <= t.pvc.value.request
    ensures t.pvc.Some? && (s.pvc.value.uid in s.finished) ==> t.pvc.value.uid in t.finished
  {
  }

  class Api {
    const g: Ground
    const env: Environment
    var w: World
    var clock: nat
    // Every world the store went through.
    ghost var reached: set<World>
    // How many calls were answered with an error.
    ghost var errors: nat

    ghost predicate Valid() reads this`w, this`reached {
      WorldInv(g, w) && Obeys(g, env) && w in reached && forall v :: v in reached ==> WorldInv(g, v)
    }

    constructor (g: Ground, env: Environment, w: World)
      requires WorldInv(g, w) && Obeys(g, env)
      ensures Valid() && this.g == g && this.env == env && this.w == w
    {
      this.g := g;
      this.env := env;
      this.w := w;
      clock := 0;
      reached, errors := {w}, 0;
    }

    method Interfere()
      requires Valid()
      modifies this
      ensures Valid() && old(reached) <= reached && errors == old(errors)
      ensures EnvLe(g.climate, old(w.slots), w.slots) && w == old(w).(slots := w.slots)
    {
      var next := w.(slots := env(w.slots, clock));
      EnvKeeps(g, w, next);
      w := next;
      clock := clock + 1;
      reached := reached + {w};
    }

    /** Every call: the environment moves, and it may fail. */
    method Call() returns (fails: bool)
      requires Valid()
      modifies this
      ensures Valid() && old(reached) <= reached
      ensures EnvLe(g.climate, old(w.slots), w.slots) && w == old(w).(slots := w.slots)
      ensures errors == old(errors) + (if fails then 1 else 0)
    {
      hide WorldInv, Obeys, EnvLe;
      Interfere();
      fails := *;
      if fails { errors := errors + 1; }
    }

    /** A write that takes effect; the answer may be lost. */
    method Write(next: World) returns (r: Result<()>)
      requires Valid() && WorldInv(g, next)
      modifies this
      ensures Valid() && old(reached) <= reached && w == next
      ensures errors == old(errors) + (if r.Err? then 1 else 0)
    {
      hide WorldInv, Obeys;
      w := next;
      reached := reached + {w};
      var fails: bool := *;
      if fails { errors := errors + 1; }
      r := if fails then Err else Ok(());
    }

    /** A call answered with an error by the server. */
    ghost method Refuse()
      requires Valid()
      modifies this`errors
      ensures Valid() && errors == old(errors) + 1
    {
      errors := errors + 1;
    }

    method BeginPass()
      requires Valid()
      modifies this
      ensures Valid() && old(reached) <= reached && errors == old(errors)
      ensures w == PassBegun(old(w))
      ensures forall i: nat :: At(w.slots, i) == At(old(w.slots), i).(born := false)
    {
      PassBegunKeeps(g, w);
      w := PassBegun(w);
      reached := reached + {w};
    }

    /** Between passes the environment begins resizes; in a calm run only where it may. */
    method BeginResizes(wished: set<nat>)
      requires Valid()
      modifies this
      ensures Valid() && old(reached) <= reached && errors == old(errors)
      ensures w.deleted == old(w.deleted) && w.wiped == old(w.wiped) && w.started == old(w.started)
      ensures forall i: nat :: i in wished && MayBegin(g, old(w), i) && At(w.slots, i).pvc.Some? ==>
                Pending(At(w.slots, i))
    {
      var begun := set i | i in wished && (!g.climate.Calm? || MayBegin(g, w, i));
      ResizesBegunKeeps(g, w, begun);
      w := ResizesBegun(w, begun);
      reached := reached + {w};
    }

    /** A patch of metadata: nothing modelled here changes. */
    method PatchMetadata() returns (r: Result<()>)
      requires Valid()
      modifies this`errors
      ensures Valid()
      ensures errors == old(errors) + (if r.Err? then 1 else 0)
    {
      var fails: bool := *;
      if fails { errors := errors + 1; }
      r := if fails then Err else Ok(());
    }

    method GetPod(i: nat) returns (r: Result<Option<Pod>>)
      requires Valid()
      modifies this
      ensures Valid() && old(reached) <= reached
      ensures errors == old(errors) + (if r.Err? then 1 else 0)
      ensures Touched(g.climate, old(w), w, i, false)
      ensures EnvSlot(g.climate, old(At(w.slots, i)), At(w.slots, i))
      ensures EnvLe(g.climate, old(w.slots), w.slots)
      ensures r.Ok? ==> r.value == At(w.slots, i).pod
      ensures w == old(w).(slots := w.slots, live := w.live)
      ensures w.live == if r.Ok? && r.value.Some? && LiveReady(r.value.value) then old(w.live) + {i} else old(w.live)
    {
      var fails := Call();
      if fails { return Err; }
      r := Ok(At(w.slots, i).pod);
      if r.value.Some? && LiveReady(r.value.value) {
        w := w.(live := w.live + {i});
        reached := reached + {w};
      }
    }

    method GetPvc(i: nat) returns (r: Result<Option<Pvc>>)
      requires Valid()
      modifies this
      ensures Valid() && old(reached) <= reached
      ensures errors == old(errors) + (if r.Err? then 1 else 0)
      ensures Touched(g.climate, old(w), w, i, false)
      ensures EnvSlot(g.climate, old(At(w.slots, i)), At(w.slots, i))
      ensures EnvLe(g.climate, old(w.slots), w.slots) && w == old(w).(slots := w.slots)
      ensures r.Ok? ==> r.value == At(w.slots, i).pvc
    {
      var fails := Call();
      r := if fails then Err else Ok(At(w.slots, i).pvc);
    }

    method ListJobs(i: nat) returns (r: Result<map<Mode, Job>>)
      requires Valid()
      modifies this
      ensures Valid() && old(reached) <= reached
      ensures errors == old(errors) + (if r.Err? then 1 else 0)
      ensures Touched(g.climate, old(w), w, i, false)
      ensures EnvSlot(g.climate, old(At(w.slots, i)), At(w.slots, i))
      ensures EnvLe(g.climate, old(w.slots), w.slots) && w == old(w).(slots := w.slots)
      ensures r.Ok? ==> r.value == At(w.slots, i).jobs
    {
      var fails := Call();
      r := if fails then Err else Ok(At(w.slots, i).jobs);
    }

    /** A listing: every instance at one moment. */
    method List() returns (r: Result<Slots>)
      requires Valid()
      modifies this
      ensures Valid() && old(reached) <= reached
      ensures errors == old(errors) + (if r.Err? then 1 else 0)
      ensures EnvLe(g.climate, old(w.slots), w.slots) && w == old(w).(slots := w.slots)
      ensures r.Ok? ==> r.value == w.slots
    {
      var fails := Call();
      r := if fails then Err else Ok(w.slots);
    }

    method CreatePod(i: nat, template: int) returns (r: Result<()>)
      requires Valid()
      requires At(w.slots, i).jobs == map[]
      requires At(w.slots, i).pvc.Some? ==> Bootstrapped(At(w.slots, i).pvc.value)
      requires g.climate.Calm? ==> 1 <= i <= g.n && template == g.want(i)
      modifies this
      ensures Valid() && old(reached) <= reached
      ensures errors == old(errors) + (if r.Err? then 1 else 0)
      ensures Touched(g.climate, old(w), w, i, true)
      ensures w == old(w).(slots := w.slots, nextUid := w.nextUid)
      ensures r.Ok? ==> OnTemplate(At(w.slots, i), template)
      ensures old(At(w.slots, i).born) ==> At(w.slots, i).born
      ensures old(At(w.slots, i)).pod.None? && At(w.slots, i).pod.Some? ==> At(w.slots, i).born
    {
      var fails := Call();
      if fails { return Err; }
      if At(w.slots, i).pod.Some? {
        Refuse();
        return Err;
      }
      PodCreatedKeeps(g, w, i, template);
      r := Write(PodCreated(w, i, template));
    }

    method DeletePod(i: nat) returns (r: Result<()>)
      requires Valid()
      requires g.climate.Calm? ==> Turn(g, w.slots, i)
      modifies this
      ensures Valid() && old(reached) <= reached
      ensures errors == old(errors) + (if r.Err? then 1 else 0)
      ensures Touched(g.climate, old(w), w, i, false)
      ensures w == old(w).(slots := w.slots, deleted := w.deleted, down := w.down)
      ensures w.deleted == old(w.deleted) || (w.deleted == old(w.deleted) + [i] && old(At(w.slots, i)).pod.Some?)
      ensures r.Ok? ==> At(w.slots, i).pod.Some? && At(w.slots, i).pod.value.terminating
      ensures SlotLe(old(At(w.slots, i)), At(w.slots, i))
      ensures g.climate.Calm? && r.Ok? && Live(old(At(w.slots, i))) ==> w.deleted == old(w.deleted) + [i]
    {
      if g.climate.Calm? {
        forall k: Slots | EnvLe(g.climate, w.slots, k) ensures Turn(g, k, i) { TurnStable(g, w.slots, k, i); }
      }
      var fails := Call();
      if fails { return Err; }
      if At(w.slots, i).pod.None? {
        Refuse();
        return Err;
      }
      PodDeletedKeeps(g, w, i);
      r := Write(PodDeleted(w, i));
    }

    /** The same with a Pod that is not there taken for success. */
    method DeletePodIfFound(i: nat) returns (r: Result<()>)
      requires Valid() && !g.climate.Calm?
      modifies this
      ensures Valid() && old(reached) <= reached
      ensures errors == old(errors) + (if r.Err? then 1 else 0)
      ensures Touched(g.climate, old(w), w, i, false)
      ensures w == old(w).(slots := w.slots, deleted := w.deleted, down := w.down)
      ensures w.deleted == old(w.deleted) || (w.deleted == old(w.deleted) + [i] && old(At(w.slots, i)).pod.Some?)
      ensures r.Ok? && At(w.slots, i).pod.Some? ==> At(w.slots, i).pod.value.terminating
      ensures SlotLe(old(At(w.slots, i)), At(w.slots, i))
    {
      var fails := Call();
      if fails { return Err; }
      if At(w.slots, i).pod.Some? {
        PodDeletedKeeps(g, w, i);
        r := Write(PodDeleted(w, i));
      } else {
        r := Ok(());
      }
    }

    method CreatePvc(i: nat, request: nat) returns (r: Result<()>)
      requires Valid() && !g.climate.Calm?
      modifies this
      ensures Valid() && old(reached) <= reached
      ensures errors == old(errors) + (if r.Err? then 1 else 0)
      ensures Touched(g.climate, old(w), w, i, false)
      ensures w == old(w).(slots := w.slots, nextUid := w.nextUid)
      ensures EnvSlot(g.climate, old(At(w.slots, i)).(pvc := At(w.slots, i).pvc), At(w.slots, i))
      ensures r.Ok? ==>
                At(w.slots, i).pvc.Some? && At(w.slots, i).pvc.value.mark.Initializing? &&
                At(w.slots, i).pvc.value.request == request
    {
      var fails := Call();
      if fails { return Err; }
      if At(w.slots, i).pvc.Some? {
        Refuse();
        return Err;
      }
      PvcCreatedKeeps(g, w, i, request);
      r := Write(PvcCreated(w, i, request));
    }

    /** Raises a volume's storage request. */
    method GrowPvc(i: nat, request: nat) returns (r: Result<()>)
      requires Valid()
      modifies this
      ensures Valid() && old(reached) <= reached
      ensures errors == old(errors) + (if r.Err? then 1 else 0)
      ensures Touched(g.climate, old(w), w, i, false)
      ensures w == old(w).(slots := w.slots)
      ensures EnvLe(g.climate, old(w.slots), w.slots)
      ensures EnvSlot(g.climate, old(At(w.slots, i)), At(w.slots, i))
      ensures r.Ok? ==> At(w.slots, i).pvc.Some? && At(w.slots, i).pvc.value.request >= request
    {
      hide WorldInv, Obeys, EnvLe, OthersLe, Touched;
      var fails := Call();
      EnvTouches(g, old(w), w, i);
      if fails { return Err; }
      if At(w.slots, i).pvc.None? {
        Refuse();
        return Err;
      }
      if At(w.slots, i).pvc.value.request < request {
        PvcGrownKeeps(g, w, i, request);
        WriteTouches(g.climate, old(w), w, i, PvcGrown(w, i, request));
        r := Write(PvcGrown(w, i, request));
      } else {
        r := PatchMetadata();
      }
    }

    /** Marks a volume ready: allowed only if a Job stamped with it completed, or it predates the run. */
    method MarkReady(i: nat) returns (r: Result<()>)
      requires Valid()
      requires At(w.slots, i).pvc.Some? ==>
        At(w.slots, i).pvc.value.uid < g.base || At(w.slots, i).pvc.value.uid in At(w.slots, i).finished
      requires At(w.slots, i).pod.Some? ==> At(w.slots, i).pod.value.volume.Some?
      modifies this
      ensures Valid() && old(reached) <= reached
      ensures errors == old(errors) + (if r.Err? then 1 else 0)
      ensures Touched(g.climate, old(w), w, i, false)
      ensures w == old(w).(slots := w.slots)
      ensures EnvSlot(g.climate, old(At(w.slots, i)).(pvc := At(w.slots, i).pvc), At(w.slots, i))
      ensures At(w.slots, i).pvc.Some? ==>
        old(At(w.slots, i)).pvc.Some? && At(w.slots, i).pvc.value.uid == old(At(w.slots, i)).pvc.value.uid &&
        old(At(w.slots, i)).pvc.value.request <= At(w.slots, i).pvc.value.request
      ensures r.Ok? ==> At(w.slots, i).pvc.Some? && At(w.slots, i).pvc.value.mark.Ready?
    {
      hide WorldInv, Obeys, EnvLe, OthersLe, Touched, EnvSlot, PvcMarked;
      var fails := Call();
      EnvTouches(g, old(w), w, i);
      SameVolume(g.climate, old(At(w.slots, i)), At(w.slots, i));
      if fails { return Err; }
      if At(w.slots, i).pvc.None? {
        Refuse();
        return Err;
      }
      PvcMarkedKeeps(g, w, i);
      MarkedAs(w, i);
      WriteTouches(g.climate, old(w), w, i, PvcMarked(w, i));
      MarkCommutes(g.climate, old(At(w.slots, i)), At(w.slots, i));
      r := Write(PvcMarked(w, i));
    }

    method DeletePvc(i: nat) returns (r: Result<()>)
      requires Valid() && !g.climate.Calm?
      modifies this
      ensures Valid() && old(reached) <= reached
      ensures errors == old(errors) + (if r.Err? then 1 else 0)
      ensures Touched(g.climate, old(w), w, i, false)
      ensures w == old(w).(slots := w.slots, wiped := w.wiped)
      ensures EnvLe(g.climate, old(w.slots), w.slots)
      ensures EnvSlot(g.climate, old(At(w.slots, i)), At(w.slots, i))
      ensures w.wiped == old(w.wiped) ||
              (old(At(w.slots, i)).pvc.Some? &&
               w.wiped == old(w.wiped) + [Wipe(i, Bootstrapped(old(At(w.slots, i)).pvc.value))])
      ensures r.Ok? ==> At(w.slots, i).pvc.Some? ==> At(w.slots, i).pvc.value.terminating
    {
      hide WorldInv, Obeys, EnvLe, OthersLe, Touched;
      var fails := Call();
      EnvTouches(g, old(w), w, i);
      if fails { return Err; }
      if At(w.slots, i).pvc.Some? {
        PvcDeletedKeeps(g, w, i);
        WriteTouches(g.climate, old(w), w, i, PvcDeleted(w, i));
        r := Write(PvcDeleted(w, i));
      } else {
        r := Ok(());
      }
    }

    /** Creates a bootstrap Job stamped with a volume's UID; one of that name already there is left alone. */
    method CreateJob(i: nat, mode: Mode, volume: nat, specHash: int) returns (r: Result<()>)
      requires Valid() && !g.climate.Calm?
      requires At(w.slots, i).pod.None? && volume < w.nextUid
      modifies this
      ensures Valid() && old(reached) <= reached
      ensures errors == old(errors) + (if r.Err? then 1 else 0)
      ensures Touched(g.climate, old(w), w, i, false)
      ensures w == old(w).(slots := w.slots, started := w.started)
      ensures At(w.slots, i).pod.None? && At(w.slots, i).born == old(At(w.slots, i).born)
      ensures w.started == old(w.started) || w.started == old(w.started) + [i]
      ensures r.Ok? && old(At(w.slots, i)).jobs == map[] ==>
                w.started == old(w.started) + [i] &&
                At(w.slots, i).jobs == map[mode := Job(volume, specHash, Running, false)]
      ensures At(w.slots, i).pvc.Some? ==>
                old(At(w.slots, i)).pvc.Some? && PvcLe(old(At(w.slots, i)).pvc.value, At(w.slots, i).pvc.value)
    {
      var fails := Call();
      if fails { return Err; }
      if mode !in At(w.slots, i).jobs {
        JobCreatedKeeps(g, w, i, mode, volume, specHash);
        r := Write(JobCreated(w, i, mode, volume, specHash));
      } else {
        r := Ok(());
      }
    }

    method DeleteJob(i: nat, mode: Mode) returns (r: Result<()>)
      requires Valid() && !g.climate.Calm?
      modifies this
      ensures Valid() && old(reached) <= reached
      ensures errors == old(errors) + (if r.Err? then 1 else 0)
      ensures Touched(g.climate, old(w), w, i, false)
      ensures w == old(w).(slots := w.slots)
      ensures EnvLe(g.climate, old(w.slots), w.slots)
      ensures EnvSlot(g.climate, old(At(w.slots, i)), At(w.slots, i))
      ensures r.Ok? && mode in At(w.slots, i).jobs ==> At(w.slots, i).jobs[mode].terminating
    {
      hide WorldInv, Obeys, EnvLe, OthersLe, Touched;
      var fails := Call();
      EnvTouches(g, old(w), w, i);
      if fails { return Err; }
      if mode in At(w.slots, i).jobs {
        JobDeletedKeeps(g, w, i, mode);
        WriteTouches(g.climate, old(w), w, i, JobDeleted(w, i, mode));
        r := Write(JobDeleted(w, i, mode));
      } else {
        r := Ok(());
      }
    }

    /** Records that the teardown of a re-initialisation completed. */
    method RecordTeardown(i: nat)
      requires Valid() && !g.climate.Calm?
      requires At(w.slots, i).pod.None? && At(w.slots, i).jobs == map[] && At(w.slots, i).pvc.None?
      modifies this
      ensures Valid() && old(reached) <= reached && errors == old(errors)
      ensures w == RequestCleared(old(w), i)
    {
      RequestClearedKeeps(g, w, i);
      w := RequestCleared(w, i);
      reached := reached + {w};
    }
  }
}
