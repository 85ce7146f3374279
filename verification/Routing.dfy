/**
  The labels and annotations of an instance Pod, and the three passes that write
  them: the one that keeps its template's metadata, the one that labels its role,
  and the one that takes it out of routing while it is fenced or has been
  unreachable for a while. Times are in seconds, as they are stamped.
*/
module Routing {
  import opened Wrappers

  const GRACE := 30

  datatype Label = Role | Routable | OtherLabel(key: nat)
  datatype Note = Since | Fencing | ReloadApplied | ForceMembers | ForceRebootstrap | GroupObservation | TemplateHash
                | OtherNote(key: nat)
  datatype Value = Primary | Replica | Yes | No | Stamp(at: int) | Text(content: nat)

  type Labels = map<Label, Value>
  type Notes = map<Note, Value>

  datatype Pod = Pod(terminating: bool, labels: Labels, notes: Notes)

  /** The annotations other passes own. */
  const OWNED := {Since, Fencing, ReloadApplied, ForceMembers, ForceRebootstrap, GroupObservation}

  // ---- What each pass makes of a Pod ----

  /** Template metadata, with the routable label and the annotations others own as they are. */
  function Ensured(p: Pod, want: Pod): Pod {
    Pod(p.terminating,
        if Routable in p.labels then want.labels[Routable := p.labels[Routable]] else want.labels,
        want.notes + (map k | k in OWNED && k in p.notes :: p.notes[k]))
  }

  /** What a template of this instance asks for. */
  predicate Template(want: Pod) {
    Role in want.labels && Routable in want.labels && want.notes.Keys !! OWNED
  }

  function RoleValue(primary: bool): Value {
    if primary then Primary else Replica
  }

  function Relabelled(p: Pod, primary: bool): Pod {
    p.(labels := p.labels[Role := RoleValue(primary)])
  }

  /** What a fencing pass knows of one Pod. */
  datatype Context = Context(established: bool, primary: bool, fenced: bool, reachable: bool, now: int)

  predicate Lost(c: Context) {
    c.established && !c.primary && !c.fenced && !c.reachable
  }

  function Marked(p: Pod, c: Context): Notes {
    if !Lost(c) then p.notes - {Since} else if Since in p.notes then p.notes else p.notes[Since := Stamp(c.now)]
  }

  /** An unreadable mark never takes a Pod out. */
  predicate DeRouted(p: Pod, c: Context) {
    Lost(c) && Since in p.notes && p.notes[Since].Stamp? && c.now - p.notes[Since].at >= GRACE
  }

  /** The Pod bears a readable mark at least the grace period old. */
  predicate LongAgo(p: Pod, now: int) {
    Since in p.notes && p.notes[Since].Stamp? && p.notes[Since].at + GRACE <= now
  }

  function Fenced(p: Pod, c: Context): Pod {
    Pod(p.terminating, p.labels[Routable := if c.fenced || DeRouted(p, c) then No else Yes], Marked(p, c))
  }

  // ---- Writers that agree ----

  /** Each of the three finds nothing to write. */
  predicate AtRest(p: Pod, want: Pod, primary: bool, c: Context) {
    Ensured(p, want) == p && Relabelled(p, primary) == p && Fenced(p, c) == p
  }

  /** One pass each, on any Pod, and none has anything left to write. */
  lemma OnePassSettles(p: Pod, want: Pod, primary: bool, c: Context)
    requires Template(want) && want.labels[Role] == RoleValue(primary)
    ensures AtRest(Fenced(Relabelled(Ensured(p, want), primary), c), want, primary, c)
  {
    var e := Relabelled(Ensured(p, want), primary);
    var q := Fenced(e, c);
    EnsureRests(p, want, primary, c);
    assert Relabelled(q, primary).labels == q.labels;
    FenceRests(e, c);
  }

  /** As time goes on they stay at rest exactly until the grace period of a mark runs out. */
  lemma RestsUntilGrace(p: Pod, want: Pod, primary: bool, c: Context, later: int)
    requires AtRest(p, want, primary, c) && c.now <= later
    ensures AtRest(p, want, primary, c.(now := later)) <==> (DeRouted(p, c.(now := later)) ==> DeRouted(p, c))
  {
    var d := c.(now := later);
    hide Ensured;
    assert Marked(p, d) == p.notes;
    assert p.labels[Routable] == if c.fenced || DeRouted(p, c) then No else Yes;
    if DeRouted(p, d) == DeRouted(p, c) {
      assert Fenced(p, d).labels == p.labels;
    } else {
      assert Fenced(p, d).labels[Routable] != p.labels[Routable];
    }
  }

  lemma EnsureRests(p: Pod, want: Pod, primary: bool, c: Context)
    requires Template(want) && want.labels[Role] == RoleValue(primary)
    ensures var q := Fenced(Relabelled(Ensured(p, want), primary), c); Ensured(q, want) == q
  {
    var e := Relabelled(Ensured(p, want), primary);
    var q := Fenced(e, c);
    hide DeRouted, Lost;
    assert q.labels.Keys == want.labels.Keys;
    assert Ensured(q, want).labels == q.labels;
    forall k ensures k in q.notes <==> k in want.notes || (k in OWNED && k in q.notes) {}
    forall k | k in want.notes ensures k in q.notes && q.notes[k] == want.notes[k] {}
    assert Ensured(q, want).notes == q.notes;
  }

  lemma FenceRests(e: Pod, c: Context)
    ensures Fenced(Fenced(e, c), c) == Fenced(e, c)
  {
    var q := Fenced(e, c);
    assert Marked(q, c) == q.notes;
    assert DeRouted(q, c) == DeRouted(e, c);
    assert Fenced(q, c).labels == q.labels;
  }

  /** They can come to rest exactly if the template's role is the one the labelling pass gives. */
  lemma RestIff(want: Pod, primary: bool, c: Context)
    requires Template(want)
    ensures (exists p :: AtRest(p, want, primary, c)) <==> want.labels[Role] == RoleValue(primary)
  {
    if want.labels[Role] == RoleValue(primary) {
      OnePassSettles(want, want, primary, c);
    } else {
      forall p ensures !AtRest(p, want, primary, c) {
        assert Relabelled(p, primary).labels[Role] == RoleValue(primary);
        assert Ensured(p, want).labels[Role] == want.labels[Role];
      }
    }
  }

  // ---- The clock of an unreachable Pod ----

  /** A write to a Pod by one of the passes, and whether the API accepted it. */
  datatype Visit = Ensure(want: Pod, accepted: bool) | Relabel(primary: bool, accepted: bool)
                 | Fence(context: Context, accepted: bool)

  function Visited(p: Pod, v: Visit): Pod {
    if !v.accepted then p
    else match v
      case Ensure(want, _) => Ensured(p, want)
      case Relabel(primary, _) => Relabelled(p, primary)
      case Fence(context, _) => Fenced(p, context)
  }

  function After(p: Pod, visits: seq<Visit>): Pod {
    if visits == [] then p else Visited(After(p, visits[..|visits| - 1]), visits[|visits| - 1])
  }

  ghost predicate Templates(visits: seq<Visit>) {
    forall k :: 0 <= k < |visits| && visits[k].Ensure? ==> Template(visits[k].want)
  }

  /**
    From visit m on, every fencing pass that got through found an unreachable,
    unfenced non-primary of an established cluster.
  */
  ghost predicate UnreachableSince(visits: seq<Visit>, m: int) {
    forall k :: 0 <= m <= k < |visits| && visits[k].Fence? && visits[k].accepted ==>
      visits[k].context.established && !visits[k].context.primary && !visits[k].context.fenced &&
      !visits[k].context.reachable
  }

  ghost predicate StampedAt(visits: seq<Visit>, m: int, at: int) {
    0 <= m < |visits| && visits[m].Fence? && visits[m].accepted && visits[m].context.now == at
  }

  /** A mark stands for a pass that made it and for every one since, whoever else wrote the Pod in between. */
  lemma {:induction false} MarkHistory(p: Pod, visits: seq<Visit>)
    requires Since !in p.notes && Templates(visits)
    ensures Since in After(p, visits).notes ==> After(p, visits).notes[Since].Stamp?
    ensures Since in After(p, visits).notes ==>
              exists m :: StampedAt(visits, m, After(p, visits).notes[Since].at) && UnreachableSince(visits, m)
  {
    if visits == [] {
      return;
    }
    var n := |visits| - 1;
    var init, last := visits[..n], visits[n];
    MarkHistory(p, init);
    var q, r := After(p, init), After(p, visits);
    if Since in r.notes {
      if last.Fence? && last.accepted && Since !in q.notes {
        assert StampedAt(visits, n, r.notes[Since].at) && UnreachableSince(visits, n);
      } else {
        assert Since in q.notes && r.notes[Since] == q.notes[Since];
        var m :| StampedAt(init, m, q.notes[Since].at) && UnreachableSince(init, m);
        assert StampedAt(visits, m, r.notes[Since].at) && UnreachableSince(visits, m);
      }
    }
  }

  /**
    An unfenced Pod is taken out of routing only if it is a lost non-primary of an
    established cluster and was found so at every fencing pass that got through
    since one at least the grace period ago.
  */
  lemma DeRouteJustified(p: Pod, visits: seq<Visit>, c: Context)
    requires Since !in p.notes && Templates(visits) && !c.fenced
    requires Fenced(After(p, visits), c).labels[Routable] == No
    ensures c.established && !c.primary && !c.reachable
    ensures exists m, at :: StampedAt(visits, m, at) && UnreachableSince(visits, m) && c.now - at >= GRACE
  {
    MarkHistory(p, visits);
    var q := After(p, visits);
    var m :| StampedAt(visits, m, q.notes[Since].at) && UnreachableSince(visits, m);
  }

  /** A pass whose write is refused does not count: its Pod may be taken out although it was reachable then. */
  lemma RefusedWriteKeepsTheMark(p: Pod, visits: seq<Visit>, c: Context)
    requires Since !in p.notes
    requires visits == [Fence(Context(true, false, false, false, 0), true),
                        Fence(Context(true, false, false, true, 29), false)]
    requires c == Context(true, false, false, false, 30)
    ensures Fenced(After(p, visits), c).labels[Routable] == No
  {
    assert visits[..1] == [visits[0]] && [visits[0]][..0] == [];
    assert After(p, visits[..1]) == Visited(After(p, []), visits[0]);
    assert After(p, visits) == After(p, visits[..1]);
  }

  // ---- The loops ----

  function About(name: nat, fenced: set<nat>, reachable: set<nat>, primary: nat, established: bool, now: int): Context {
    Context(established, name == primary, name in fenced, name in reachable, now)
  }

  class Api {
    var pods: map<nat, Pod>
    /** How many calls failed. */
    ghost var errors: nat

    constructor (pods: map<nat, Pod>)
      ensures this.pods == pods && errors == 0
    {
      this.pods, errors := pods, 0;
    }

    /** A read that may fail. */
    method Get() returns (answered: bool)
      modifies this`errors
      ensures errors == old(errors) + (if answered then 0 else 1)
    {
      answered := *;
      errors := if answered then errors else errors + 1;
    }

    /** A patch replaces the Pod or fails without effect. */
    method Patch(name: nat, p: Pod) returns (ok: bool)
      requires name in pods
      modifies this
      ensures pods == if ok then old(pods)[name := p] else old(pods)
      ensures errors == old(errors) + (if ok then 0 else 1)
    {
      ok := *;
      errors := if ok then errors else errors + 1;
      if ok {
        pods := pods[name := p];
      }
    }

    /** Labels roles in order and stops, without an error, at the first Pod that is missing. */
    method PatchRoleLabels(names: seq<nat>, primary: nat) returns (r: Result<nat>)
      requires forall i, j :: 0 <= i < j < |names| ==> names[i] != names[j]
      modifies this
      ensures pods.Keys == old(pods).Keys
      ensures errors == old(errors) + (if r.Ok? then 0 else 1)
      ensures r.Ok? ==> r.value <= |names| && (r.value < |names| ==> names[r.value] !in pods)
      ensures r.Ok? ==> forall k :: 0 <= k < |names| && names[k] in pods ==>
                pods[names[k]] == if k < r.value && !old(pods)[names[k]].terminating
                                  then Relabelled(old(pods)[names[k]], names[k] == primary)
                                  else old(pods)[names[k]]
      ensures r.Ok? ==> forall k :: 0 <= k < r.value ==> names[k] in pods
      // The primary's Pod says so, and no other one's does.
      ensures r.Ok? ==> forall k :: 0 <= k < r.value && names[k] in pods && !pods[names[k]].terminating ==>
                Role in pods[names[k]].labels &&
                pods[names[k]].labels[Role] == if names[k] == primary then Primary else Replica
      ensures forall n :: n in pods && n !in names ==> pods[n] == old(pods)[n]
    {
      for i := 0 to |names|
        invariant pods.Keys == old(pods).Keys && errors == old(errors)
        invariant forall k :: 0 <= k < i ==> names[k] in pods
        invariant forall k :: 0 <= k < |names| && names[k] in pods ==>
                    pods[names[k]] == if k < i && !old(pods)[names[k]].terminating
                                      then Relabelled(old(pods)[names[k]], names[k] == primary)
                                      else old(pods)[names[k]]
        invariant forall n :: n in pods && n !in names ==> pods[n] == old(pods)[n]
      {
        var name := names[i];
        var answered := Get();
        if !answered {
          return Err;
        }
        if name !in pods {
          return Ok(i);
        }
        var p := pods[name];
        if p.terminating || (Role in p.labels && p.labels[Role] == RoleValue(name == primary)) {
          assert !p.terminating ==> Relabelled(p, name == primary).labels == p.labels;
          continue;
        }
        var ok := Patch(name, Relabelled(p, name == primary));
        if !ok {
          return Err;
        }
      }
      return Ok(|names|);
    }

    /**
      Goes through the Pods in order; one that is missing or terminating is
      passed over, a refused call ends the pass.
    */
    method ReconcileFencing(names: seq<nat>, fenced: set<nat>, reachable: set<nat>, primary: nat, established: bool,
                            now: int)
      returns (r: Result<()>, ghost reached: nat)
      requires forall i, j :: 0 <= i < j < |names| ==> names[i] != names[j]
      modifies this
      ensures pods.Keys == old(pods).Keys
      ensures errors == old(errors) + (if r.Ok? then 0 else 1)
      ensures reached <= |names| && (r.Ok? ==> reached == |names|)
      ensures forall k :: 0 <= k < |names| && names[k] in pods ==>
                pods[names[k]] == if k < reached && !old(pods)[names[k]].terminating then
                                    Fenced(old(pods)[names[k]],
                                           About(names[k], fenced, reachable, primary, established, now))
                                  else old(pods)[names[k]]
      // A fenced Pod is out of routing; of the others only a replica unreachable for long.
      ensures forall k :: 0 <= k < reached && names[k] in pods && !pods[names[k]].terminating ==>
                Routable in pods[names[k]].labels &&
                if names[k] in fenced then pods[names[k]].labels[Routable] == No
                else if names[k] == primary || names[k] in reachable || !established then
                  pods[names[k]].labels[Routable] == Yes && Since !in pods[names[k]].notes
                else
                  && Since in pods[names[k]].notes
                  && (Since in old(pods)[names[k]].notes ==>
                        pods[names[k]].notes[Since] == old(pods)[names[k]].notes[Since])
                  && (Since !in old(pods)[names[k]].notes ==> pods[names[k]].notes[Since] == Stamp(now))
                  && pods[names[k]].labels[Routable] == if LongAgo(pods[names[k]], now) then No else Yes
      ensures forall n :: n in pods && n !in names ==> pods[n] == old(pods)[n]
    {
      reached := 0;
      for i := 0 to |names|
        invariant reached == i && pods.Keys == old(pods).Keys && errors == old(errors)
        invariant forall k :: 0 <= k < |names| && names[k] in pods ==>
                    pods[names[k]] == if k < i && !old(pods)[names[k]].terminating then
                                        Fenced(old(pods)[names[k]],
                                               About(names[k], fenced, reachable, primary, established, now))
                                      else old(pods)[names[k]]
        invariant forall n :: n in pods && n !in names ==> pods[n] == old(pods)[n]
      {
        var name := names[i];
        var answered := Get();
        if !answered {
          return Err, i;
        }
        reached := i + 1;
        if name !in pods || pods[name].terminating {
          continue;
        }
        var p := pods[name];
        var c := About(name, fenced, reachable, primary, established, now);
        var q := Fenced(p, c);
        if q == p {
          continue;
        }
        var ok := Patch(name, q);
        if !ok {
          return Err, i;
        }
      }
      return Ok(()), |names|;
    }
  }
}
