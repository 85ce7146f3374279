/**
  The image a cluster's instances run: the one its spec resolves to once that was
  probed and found fit, and until then the one before. `parse` and `chain` stand
  for the flavour's version syntax and its order of series.
*/
module ImageTarget {
  import opened Wrappers

  datatype Series = Series(major: nat, minor: nat)
  datatype Version = Version(series: Series, patch: nat)
  datatype Info = Info(image: nat, flavor: nat, version: nat)

  /** What is fixed for a cluster. */
  datatype Rules = Rules(flavor: nat, mysql: bool, parse: nat -> Option<Version>, chain: seq<Series>)

  function IndexOf(chain: seq<Series>, s: Series): (i: int)
    ensures -1 <= i < |chain| && (i >= 0 <==> s in chain)
    ensures i >= 0 ==> chain[i] == s && s !in chain[..i]
  {
    if chain == [] then -1
    else
      assert chain == chain[..|chain| - 1] + [chain[|chain| - 1]];
      var i := IndexOf(chain[..|chain| - 1], s);
      assert i >= 0 ==> chain[..i] == chain[..|chain| - 1][..i];
      if i >= 0 then i else if chain[|chain| - 1] == s then |chain| - 1 else -1
  }

  /** Within a series, or one step up the chain. */
  predicate UpgradeAllowed(chain: seq<Series>, from: Version, to: Version) {
    from.series == to.series ||
    (var i, j := IndexOf(chain, from.series), IndexOf(chain, to.series); i >= 0 && j >= 0 && i <= j <= i + 1)
  }

  /** One series comes right after another in the chain. */
  ghost predicate NextTo(chain: seq<Series>, a: Series, b: Series) {
    exists k :: 0 <= k < |chain| - 1 && chain[k] == a && chain[k + 1] == b
  }

  /** A chain that names no series twice allows exactly a change within a series or to the next one. */
  lemma UpgradeAllowedIff(chain: seq<Series>, from: Version, to: Version)
    requires forall i, j :: 0 <= i < j < |chain| ==> chain[i] != chain[j]
    ensures UpgradeAllowed(chain, from, to) <==> from.series == to.series || NextTo(chain, from.series, to.series)
  {
    var i, j := IndexOf(chain, from.series), IndexOf(chain, to.series);
    if k :| 0 <= k < |chain| - 1 && chain[k] == from.series && chain[k + 1] == to.series {
      assert i == k && j == k + 1;
    }
  }

  predicate AtLeast57(v: Version) {
    v.series.major > 5 || (v.series.major == 5 && v.series.minor >= 7)
  }

  /** Of the cluster's flavour and readable. */
  ghost predicate Sound(rules: Rules, info: Info) {
    info.flavor == rules.flavor && rules.parse(info.version).Some? &&
    (rules.mysql ==> AtLeast57(rules.parse(info.version).value))
  }

  ghost predicate MayFollow(rules: Rules, from: Info, to: Info) {
    && rules.parse(from.version).Some? && rules.parse(to.version).Some?
    && UpgradeAllowed(rules.chain, rules.parse(from.version).value, rules.parse(to.version).value)
  }

  /** All that is asked of an image to move to. */
  ghost predicate Fit(rules: Rules, named: Option<Series>, previous: Option<Info>, info: Info) {
    && Sound(rules, info) && (named.Some? ==> rules.parse(info.version).value.series == named.value)
    && (previous.Some? ==> MayFollow(rules, previous.value, info))
  }

  /** A previous version that cannot be read skips the upgrade check. */
  method ValidateTargetImage(rules: Rules, named: Option<Series>, previous: Option<Info>, info: Info) returns (ok: bool)
    ensures ok ==> Sound(rules, info) && (named.Some? ==> rules.parse(info.version).value.series == named.value)
    ensures ok && previous.Some? && rules.parse(previous.value.version).Some? ==> MayFollow(rules, previous.value, info)
    ensures Fit(rules, named, previous, info) ==> ok
    // A MySQL image older than 5.7 is refused, and no newer one for its age.
    ensures ok && rules.mysql ==>
              var v := rules.parse(info.version).value.series; v.major >= 5 && (v.major == 5 ==> v.minor >= 7)
    ensures info.flavor == rules.flavor && rules.parse(info.version).Some? && named.None? && previous.None? ==>
              var v := rules.parse(info.version).value.series; !rules.mysql || v.major > 5 || v == Series(5, 7) ==> ok
    ensures ok && previous.Some? && rules.parse(previous.value.version).Some? ==>
              var a, b := rules.parse(previous.value.version).value.series, rules.parse(info.version).value.series;
              a == b || NextTo(rules.chain, a, b)
  {
    if info.flavor != rules.flavor {
      return false;
    }
    var probed := rules.parse(info.version);
    if probed.None? || (rules.mysql && !AtLeast57(probed.value)) {
      return false;
    }
    if named.Some? && named.value != probed.value.series {
      return false;
    }
    if previous.None? {
      return true;
    }
    var from := rules.parse(previous.value.version);
    if from.None? {
      return true;
    }
    return UpgradeAllowed(rules.chain, from.value, probed.value);
  }

  /** What a probe of an image says. */
  datatype Probe = Probing | Rejected | Transient | Probed(info: Info)

  /** What one reconcile meets: the image the spec resolves to, its probe, and which later steps work. */
  datatype Pass = Pass(image: nat, named: Option<Series>, probe: Probe, released: bool, planned: bool, recorded: bool)

  /** The image to plan with, and the one newly accepted, if any; None: no plan this time. */
  method ResolveTargetImage(rules: Rules, previous: Option<Info>, p: Pass)
    returns (target: Option<Info>, accepted: Option<Info>)
    ensures accepted.Some? ==> target == accepted && p.probe == Probed(accepted.value) && Sound(rules, accepted.value)
    ensures accepted.Some? && previous.Some? && rules.parse(previous.value.version).Some? ==>
              MayFollow(rules, previous.value, accepted.value)
    ensures accepted.None? && target.Some? ==> target == previous
    ensures target.None? ==> previous.None? || p.probe.Transient? || (p.probe.Probed? && !p.released)
    // The image at hand is not looked at again; a fit one waits for its release, and nothing is planned meanwhile.
    ensures previous.Some? && previous.value.image == p.image ==> target == previous && accepted.None?
    ensures accepted.Some? ==> p.released
    ensures (previous.Some? ==> previous.value.image != p.image) && p.probe.Transient? ==> target.None?
    ensures (previous.Some? ==> previous.value.image != p.image) && p.probe.Probed? && !p.released ==>
              Fit(rules, p.named, previous, p.probe.info) ==> target.None?
    ensures p.probe.Probed? && p.released && (previous.Some? ==> previous.value.image != p.image) &&
            Fit(rules, p.named, previous, p.probe.info) ==>
              accepted == Some(p.probe.info)
  {
    if previous.Some? && previous.value.image == p.image {
      return previous, None;
    }
    match p.probe {
      case Transient => return None, None;
      case Rejected => return previous, None;
      case Probing => return previous, None;
      case Probed(info) =>
        var ok := ValidateTargetImage(rules, p.named, previous, info);
        if !ok {
          return previous, None;
        }
        if !p.released {
          return None, None;
        }
        return Some(info), Some(info);
    }
  }

  /** A plan that fails past the image still records it; a record that fails leaves no plan. */
  method ResolvePlan(rules: Rules, target: Option<Info>, p: Pass) returns (next: Option<Info>, plan: Option<Info>)
    ensures next == target || (next.Some? && p.probe == Probed(next.value) && Sound(rules, next.value))
    ensures next != target && target.Some? && rules.parse(target.value.version).Some? ==>
              MayFollow(rules, target.value, next.value)
    ensures target.Some? ==> next.Some?
    ensures plan.Some? ==> plan == next
    ensures !p.recorded ==> next == target && plan.None?
    ensures !p.planned ==> plan.None?
    ensures next != target ==> p.released && (target.Some? ==> target.value.image != p.image)
    ensures p.probe.Transient? && (target.Some? ==> target.value.image != p.image) ==> plan.None? && next == target
    ensures p.probe.Probed? && p.released && p.recorded && (target.Some? ==> target.value.image != p.image) ==>
              Fit(rules, p.named, target, p.probe.info) ==> next == Some(p.probe.info)
    ensures p.planned && p.recorded && target.Some? && !p.probe.Transient? && p.released ==> plan.Some?
  {
    next, plan := target, None;
    var image, accepted := ResolveTargetImage(rules, target, p);
    if image.None? {
      return;
    }
    if accepted.Some? && p.recorded {
      next := accepted;
    }
    if p.planned && p.recorded {
      plan := image;
    }
  }

  // ---- Whole runs ----

  /** Every target recorded is sound. */
  ghost predicate SoundTarget(rules: Rules, t: Option<Info>) {
    t.Some? ==> Sound(rules, t.value)
  }

  ghost predicate Follows(rules: Rules, a: Option<Info>, b: Option<Info>) {
    a == b || (b.Some? && (a.Some? ==> MayFollow(rules, a.value, b.value)))
  }

  /** The place of a target's series in the chain; no series goes back below it. */
  ghost function Place(rules: Rules, t: Info): int {
    if rules.parse(t.version).Some? then IndexOf(rules.chain, rules.parse(t.version).value.series) else -1
  }

  /** A change of target moves at most one place up the chain. */
  ghost predicate OneStep(rules: Rules, from: Info, to: Info) {
    Place(rules, from) <= Place(rules, to) <= Place(rules, from) + 1
  }

  /**
    From a cluster without a target: once there is one there always is, each is of
    the cluster's flavour with a readable version, each change is an upgrade the
    flavour allows, the series never goes back and never skips one, and what a plan
    runs is the target.
  */
  method TargetRun(rules: Rules, passes: seq<Pass>) returns (trace: seq<Option<Info>>, plans: seq<Option<Info>>)
    ensures |trace| == |passes| + 1 && |plans| == |passes|
    ensures forall i :: 0 <= i < |trace| ==> SoundTarget(rules, trace[i])
    ensures forall i :: 0 <= i < |passes| ==> Follows(rules, trace[i], trace[i + 1])
    ensures forall i, j :: 0 <= i <= j < |trace| && trace[i].Some? ==>
              trace[j].Some? && Place(rules, trace[i].value) <= Place(rules, trace[j].value)
    ensures forall i :: 0 <= i < |passes| && trace[i].Some? ==>
              trace[i + 1].Some? && OneStep(rules, trace[i].value, trace[i + 1].value)
    ensures forall i :: 0 <= i < |passes| && plans[i].Some? ==> plans[i] == trace[i + 1]
  {
    hide Sound, MayFollow, Place;
    trace, plans := [None], [];
    for k := 0 to |passes|
      invariant |trace| == k + 1 && |plans| == k
      invariant forall i :: 0 <= i <= k ==> SoundTarget(rules, trace[i])
      invariant forall i :: 0 <= i < k ==> Follows(rules, trace[i], trace[i + 1])
      invariant forall i, j :: 0 <= i <= j <= k && trace[i].Some? ==>
                trace[j].Some? && Place(rules, trace[i].value) <= Place(rules, trace[j].value)
      invariant forall i :: 0 <= i < k && trace[i].Some? ==>
                trace[i + 1].Some? && OneStep(rules, trace[i].value, trace[i + 1].value)
      invariant forall i :: 0 <= i < k && plans[i].Some? ==> plans[i] == trace[i + 1]
    {
      var next, plan := ResolvePlan(rules, trace[k], passes[k]);
      if trace[k].Some? {
        Readable(rules, trace[k].value);
        if next != trace[k] {
          PlaceRises(rules, trace[k].value, next.value);
        }
      }
      trace, plans := trace + [next], plans + [plan];
    }
  }

  lemma Readable(rules: Rules, t: Info)
    requires Sound(rules, t)
    ensures rules.parse(t.version).Some?
  {
  }

  lemma PlaceRises(rules: Rules, from: Info, to: Info)
    requires MayFollow(rules, from, to)
    ensures OneStep(rules, from, to)
  {
  }
}
