/**
  What the Cluster status records of the binary-log archive. Reports of a
  superseded primary must not replace what its successor recorded, and a gap in
  the archive must have stood for a grace period before it is acted on. Times are
  in milliseconds; text fields are numbers that stand for their contents.
*/
module Archiving {
  import opened Wrappers
  import opened GtidSets

  const GRACE := 420000
  const SECOND := 1000

  /** How a time comes back from the API: whole seconds. */
  function Stored(t: int): (r: int)
    ensures t - SECOND < r <= t
  {
    t - t % SECOND
  }

  /** What an instance reports of a fork check it made under a primary generation. */
  datatype Report = Report(checked: bool, generation: int, forks: seq<(int, Option<int>)>, disowned: int,
                           gaps: seq<int>, covered: int, oldest: int, frontier: int)

  /**
    The fields read from the archive index, when its list of gaps was first
    recorded, and the primary's own frontier.
  */
  datatype Archive = Archive(forks: seq<int>, detectedAt: Option<int>, disowned: int, gaps: seq<int>,
                             covered: int, oldest: int, since: Option<int>, frontier: int)

  const NOTHING := Archive([], None, 0, [], 0, 0, None, 0)

  predicate Current(report: Option<Report>, generation: int) {
    report.Some? && report.value.checked && report.value.generation >= generation
  }

  /** Both describe the archive alike; only the frontier may differ. */
  predicate SameIndex(a: Archive, b: Archive) {
    a == b.(frontier := a.frontier)
  }

  /** The archive is described as a report has it, with the earliest detection of its forks. */
  ghost predicate AsReported(a: Archive, r: Report) {
    && a.disowned == r.disowned && a.gaps == r.gaps && a.covered == r.covered && a.oldest == r.oldest
    && |a.forks| == |r.forks| && (forall i :: 0 <= i < |r.forks| ==> a.forks[i] == r.forks[i].0)
    && Earliest(r.forks, a.detectedAt)
  }

  ghost predicate Earliest(forks: seq<(int, Option<int>)>, at: Option<int>) {
    && (forall i :: 0 <= i < |forks| && forks[i].1.Some? ==> at.Some? && at.value <= forks[i].1.value)
    && (at.Some? ==> exists i :: 0 <= i < |forks| && forks[i].1 == at)
  }

  /** A list of gaps keeps its clock for as long as it is reported unchanged. */
  function Since(prior: Option<Archive>, gaps: seq<int>, now: int): Option<int> {
    if gaps == [] then None
    else if prior.Some? && prior.value.since.Some? && prior.value.gaps == gaps then prior.value.since
    else Some(now)
  }

  method AggregateArchiving(prior: Option<Archive>, report: Option<Report>, generation: int, now: int)
    returns (out: Archive)
    ensures !Current(report, generation) ==> SameIndex(out, if prior.Some? then prior.value else NOTHING)
    ensures out.frontier == if report.Some? then report.value.frontier else 0
    ensures Current(report, generation) ==> AsReported(out, report.value)
    // A report without a fork check, or of an older generation, changes nothing.
    ensures report.Some? && prior.Some? && (!report.value.checked || report.value.generation < generation) ==>
              SameIndex(out, prior.value)
    ensures report.Some? && report.value.checked && report.value.generation >= generation ==>
              AsReported(out, report.value)
    ensures Current(report, generation) ==> out.since == Since(prior, out.gaps, now)
  {
    out := NOTHING;
    if report.Some? {
      out := out.(frontier := report.value.frontier);
    }
    if !Current(report, generation) {
      if prior.Some? {
        out := prior.value.(frontier := out.frontier);
      }
      return;
    }
    var r := report.value;
    out := out.(oldest := r.oldest, disowned := r.disowned, gaps := r.gaps, covered := r.covered);
    if out.gaps != [] {
      out := out.(since := Some(now));
      if prior.Some? && prior.value.since.Some? && prior.value.gaps == out.gaps {
        out := out.(since := prior.value.since);
      }
    }
    var forks, at := CollectForks(r.forks);
    out := out.(forks := forks, detectedAt := at);
  }

  method CollectForks(forks: seq<(int, Option<int>)>) returns (gtids: seq<int>, at: Option<int>)
    ensures |gtids| == |forks| && forall i :: 0 <= i < |forks| ==> gtids[i] == forks[i].0
    ensures Earliest(forks, at)
  {
    gtids, at := [], None;
    for k := 0 to |forks|
      invariant |gtids| == k && forall i :: 0 <= i < k ==> gtids[i] == forks[i].0
      invariant Earliest(forks[..k], at)
    {
      ghost var was := at;
      gtids := gtids + [forks[k].0];
      if forks[k].1.Some? && (at.None? || forks[k].1.value < at.value) {
        at := forks[k].1;
      }
      NextEarliest(forks, k, was, at);
    }
    assert forks[..|forks|] == forks;
  }

  lemma NextEarliest(forks: seq<(int, Option<int>)>, k: int, was: Option<int>, at: Option<int>)
    requires 0 <= k < |forks| && Earliest(forks[..k], was)
    requires at == if forks[k].1.Some? && (was.None? || forks[k].1.value < was.value) then forks[k].1 else was
    ensures Earliest(forks[..k + 1], at)
  {
    assert forks[..k + 1][k] == forks[k];
    forall i | 0 <= i < k ensures forks[..k + 1][i] == forks[..k][i] {}
    if was.Some? && at == was {
      var i :| 0 <= i < k && forks[..k][i].1 == was;
      assert forks[..k + 1][i].1 == at;
    }
  }

  function OldestArchivedPosition(prior: Option<Archive>, report: Option<Report>, generation: int): int {
    if Current(report, generation) then report.value.oldest else if prior.Some? then prior.value.oldest else 0
  }

  /** The pruning of the MariaDB timeline relies on the position that is about to be recorded. */
  lemma OldestAgrees(prior: Option<Archive>, report: Option<Report>, generation: int, out: Archive)
    requires !Current(report, generation) ==> SameIndex(out, if prior.Some? then prior.value else NOTHING)
    requires Current(report, generation) ==> AsReported(out, report.value)
    ensures OldestArchivedPosition(prior, report, generation) == out.oldest
  {
  }

  // ---- What a base backup makes up for ----

  /** A gap as read: a GTID set, the end of a stretch of one domain, or neither. */
  datatype Gap = Gtids(missing: GtidSet) | Stretch(domain: nat, through: nat) | Unreadable

  /** A base backup's anchor: none, a GTID set, a position by domain, or unreadable. */
  datatype Anchor = Absent | Executed(gtids: GtidSet) | Position(seqnos: map<nat, nat>) | Garbled

  function SeqnoOf(anchor: Anchor, domain: nat): nat {
    if anchor.Position? && domain in anchor.seqnos then anchor.seqnos[domain] else 0
  }

  /** The backup holds all of the gap, so recovery from it need not cross it. */
  ghost predicate Covers(anchor: Anchor, gap: Gap) {
    match gap
    case Gtids(missing) => anchor.Executed? && Tx(missing) <= Tx(anchor.gtids)
    case Stretch(domain, through) => !anchor.Absent? && through <= SeqnoOf(anchor, domain)
    case Unreadable => false
  }

  method AnchorCoversGap(anchor: Anchor, gap: Gap) returns (r: bool)
    ensures r <==> Covers(anchor, gap)
    // A position covers a stretch that ends no later than it stands in that domain.
    ensures gap.Stretch? && anchor.Position? && gap.domain in anchor.seqnos ==>
              (r <==> gap.through <= anchor.seqnos[gap.domain])
    ensures gap.Stretch? && 0 < gap.through && !(anchor.Position? && gap.domain in anchor.seqnos) ==> !r
  {
    if anchor.Absent? || gap.Unreadable? {
      return false;
    }
    if gap.Stretch? {
      return SeqnoOf(anchor, gap.domain) >= gap.through;
    }
    if !anchor.Executed? {
      return false;
    }
    r := Contains(anchor.gtids, gap.missing);
  }

  // ---- One status patch ----

  /**
    One pass: the generation it read, the one in force when it polled the primary,
    the report it got and when; whether its Backup listing worked, the anchor of the
    newest base backup it found and what the gaps read as, when it judged them, and
    whether its status patch was accepted.
  */
  datatype Pass = Pass(enabled: bool, observed: bool, read: int, actual: int, report: Option<Report>, at: int,
                       listed: bool, anchor: Anchor, reading: int -> Gap, judgedAt: int, patched: bool)

  /** The archive as recorded, the ArchiveGap condition, and the lists of gaps a base backup was asked for. */
  datatype Status = Status(archive: Option<Archive>, gapped: Option<bool>, attempts: seq<seq<int>>)

  predicate Settled(a: Archive, now: int) {
    a.since.None? || now - a.since.value >= GRACE
  }

  /** How the pass has the archive before it is stored. */
  ghost predicate Described(s: Status, p: Pass, a: Option<Archive>) {
    if !p.observed then a == s.archive
    else a.Some? &&
         if Current(p.report, p.read) then
           AsReported(a.value, p.report.value) && a.value.since == Since(s.archive, a.value.gaps, p.at)
         else SameIndex(a.value, if s.archive.Some? then s.archive.value else NOTHING)
  }

  ghost predicate Verdict(was: Option<bool>, a: Option<Archive>, p: Pass, gapped: Option<bool>) {
    if a.None? then gapped == was
    else if a.value.gaps == [] then gapped == Some(false)
    else if !p.listed then gapped == was
    else gapped == Some(Open(p, a.value.gaps) && Settled(a.value, p.judgedAt))
  }

  /** Recovery from the newest base backup to the latest point would have to cross a gap. */
  ghost predicate Open(p: Pass, gaps: seq<int>) {
    exists k :: 0 <= k < |gaps| && !Past(p, gaps[k])
  }

  ghost predicate Past(p: Pass, gap: int) {
    Covers(p.anchor, p.reading(gap))
  }

  method OpenArchiveGaps(p: Pass, gaps: seq<int>) returns (open: seq<int>)
    ensures open != [] <==> Open(p, gaps)
    ensures forall g :: g in open <==> g in gaps && !Past(p, g)
  {
    open := [];
    for k := 0 to |gaps|
      invariant open != [] <==> exists j :: 0 <= j < k && !Past(p, gaps[j])
      invariant forall g :: g in open <==> g in gaps[..k] && !Past(p, g)
    {
      var covered := AnchorCoversGap(p.anchor, p.reading(gaps[k]));
      if !covered {
        open := open + [gaps[k]];
      }
    }
  }

  predicate Turned(s: Status, t: Status) {
    s.gapped != Some(true) && t.gapped == Some(true)
  }

  function Kept(a: Option<Archive>): Option<Archive> {
    if a.Some? && a.value.since.Some? then Some(a.value.(since := Some(Stored(a.value.since.value)))) else a
  }

  /** What a pass makes of the status, with the archive as it had it in hand. */
  ghost predicate Step(s: Status, p: Pass, a: Option<Archive>, t: Status) {
    if !p.patched then t == s
    else if !p.enabled then t == s.(archive := None, gapped := None)
    else
      && Described(s, p, a) && t.archive == Kept(a) && Verdict(s.gapped, a, p, t.gapped)
      && t.attempts == if Turned(s, t) && a.Some? then s.attempts + [a.value.gaps] else s.attempts
  }

  method PatchStatus(s: Status, p: Pass) returns (t: Status, a: Option<Archive>)
    ensures Step(s, p, a, t)
  {
    var archive, gapped := s.archive, s.gapped;
    if !p.enabled {
      archive, gapped := None, None;
    } else if p.observed {
      var out := AggregateArchiving(s.archive, p.report, p.read, p.at);
      archive := Some(out);
    }
    a := archive;
    if archive.Some? {
      if archive.value.gaps == [] {
        gapped := Some(false);
      } else if p.listed {
        var open := OpenArchiveGaps(p, archive.value.gaps);
        gapped := Some(open != [] && Settled(archive.value, p.judgedAt));
      }
    }
    if !p.patched {
      return s, a;
    }
    t := Status(Kept(archive), gapped, s.attempts);
    if s.gapped != Some(true) && gapped == Some(true) && archive.Some? {
      t := t.(attempts := s.attempts + [archive.value.gaps]);
    }
  }

  // ---- Generation fencing ----

  /** The generation of the report the archive is described by after a pass. */
  function DescribedBy(was: int, p: Pass): int {
    if p.patched && p.enabled && p.observed && Current(p.report, p.read) then p.report.value.generation else was
  }

  /**
    The generation never falls, reports do not run ahead of it, and a pass reads
    it no earlier than the last one polled.
  */
  predicate InForce(seen: int, p: Pass) {
    seen <= p.read <= p.actual && (p.report.Some? ==> p.report.value.generation <= p.actual)
  }

  function SeenBefore(passes: seq<Pass>, i: nat): int
    requires i <= |passes|
  {
    if i == 0 then 0 else passes[i - 1].actual
  }

  predicate AllInForce(passes: seq<Pass>) {
    forall i :: 0 <= i < |passes| ==> InForce(SeenBefore(passes, i), passes[i])
  }

  /** The recorded fields agree, but for the clock, which loses its fraction of a second. */
  predicate Unchanged(a: Option<Archive>, b: Option<Archive>) {
    a.Some? && b.Some? && SameIndex(b.value.(since := None), a.value.(since := None))
  }

  /**
    The archive stays described as it was, or not at all, is cleared with archiving
    off, or is described by a current report of the given generation.
  */
  ghost predicate Redescribed(a: Option<Archive>, p: Pass, b: Option<Archive>, was: int, generation: int) {
    || (a.None? && (b.None? || SameIndex(b.value.(since := None), NOTHING)) && generation == was)
    || (Unchanged(a, b) && generation == was)
    || (b.None? && !p.enabled && generation == was)
    || (Current(p.report, p.read) && p.report.value.generation == generation &&
        b.Some? && AsReported(b.value, p.report.value))
  }

  lemma Fenced(s: Status, p: Pass, a: Option<Archive>, t: Status, generation: int, seen: int)
    requires generation <= seen && InForce(seen, p) && Step(s, p, a, t)
    ensures generation <= DescribedBy(generation, p) <= p.actual
    ensures Redescribed(s.archive, p, t.archive, generation, DescribedBy(generation, p))
    ensures s.archive.Some? && !(p.patched && Current(p.report, p.read)) && t.archive.Some? ==>
              Unchanged(s.archive, t.archive)
  {
  }

  ghost predicate Rising(generations: seq<int>) {
    forall i, j :: 0 <= i < j < |generations| ==> generations[i] <= generations[j]
  }

  /** Every pass so far redescribed the archive as it should. */
  ghost predicate AllRedescribed(passes: seq<Pass>, trace: seq<Status>, generations: seq<int>) {
    && |trace| == |generations| && 0 < |trace| <= |passes| + 1
    && forall i :: 0 <= i < |trace| - 1 ==>
         Redescribed(trace[i].archive, passes[i], trace[i + 1].archive, generations[i], generations[i + 1])
  }

  lemma OneMore(passes: seq<Pass>, trace: seq<Status>, generations: seq<int>, t: Status, generation: int)
    requires AllRedescribed(passes, trace, generations) && |trace| <= |passes| && Rising(generations)
    requires generations[|generations| - 1] <= generation
    requires var k := |trace| - 1;
             Redescribed(trace[k].archive, passes[k], t.archive, generations[k], generation)
    ensures AllRedescribed(passes, trace + [t], generations + [generation]) && Rising(generations + [generation])
  {
    hide Redescribed;
  }

  /** Over any run the generations behind the recorded description only rise. */
  method FencedRun(passes: seq<Pass>) returns (trace: seq<Status>, generations: seq<int>)
    requires AllInForce(passes)
    ensures |trace| == |passes| + 1 && AllRedescribed(passes, trace, generations) && Rising(generations)
  {
    hide Step, Redescribed, AllRedescribed, Rising, InForce, DescribedBy;
    var s := Status(None, None, []);
    trace, generations := [s], [0];
    FirstOne(passes, s);
    for k := 0 to |passes|
      invariant |trace| == |generations| == k + 1 && s == trace[k]
      invariant generations[k] <= SeenBefore(passes, k)
      invariant AllRedescribed(passes, trace, generations) && Rising(generations)
    {
      var t, a := PatchStatus(s, passes[k]);
      Fenced(s, passes[k], a, t, generations[k], SeenBefore(passes, k));
      var generation := DescribedBy(generations[k], passes[k]);
      OneMore(passes, trace, generations, t, generation);
      trace, generations := trace + [t], generations + [generation];
      s := t;
    }
  }

  lemma FirstOne(passes: seq<Pass>, s: Status)
    ensures AllRedescribed(passes, [s], [0]) && Rising([0])
  {
  }

  // ---- The gap clock ----

  /** When the recorded list of gaps was first recorded, given that of the pass before. */
  function First(first: int, s: Status, p: Pass, t: Status): int {
    if s.archive.Some? && t.archive.Some? && s.archive.value.gaps == t.archive.value.gaps then first else p.at
  }

  predicate Clocked(s: Status, first: int) {
    s.archive.Some? && s.archive.value.gaps != [] ==> s.archive.value.since == Some(Stored(first))
  }

  /**
    ArchiveGap turns or stays True in a pass that could judge it only for a list
    recorded unchanged for the grace period, less the fraction of a second the
    clock lost; and does so for any open list recorded that long.
  */
  lemma GapStood(s: Status, p: Pass, a: Option<Archive>, t: Status, first: int)
    requires Clocked(s, first) && Step(s, p, a, t) && p.patched && p.enabled
    ensures Clocked(t, First(first, s, p, t))
    ensures p.listed && t.archive.Some? && t.gapped == Some(true) ==>
              Open(p, t.archive.value.gaps) && p.judgedAt - First(first, s, p, t) > GRACE - SECOND
    ensures p.listed && t.archive.Some? && Open(p, t.archive.value.gaps) &&
            p.judgedAt - First(first, s, p, t) >= GRACE ==>
              t.gapped == Some(true)
  {
  }

  /** The full grace period is kept exactly if the list was first recorded on a whole second. */
  lemma GraceExactIff(first: int)
    ensures (forall now :: Settled(NOTHING.(since := Some(Stored(first))), now) ==> now - first >= GRACE) <==>
            first % SECOND == 0
  {
    if first % SECOND != 0 {
      var now := Stored(first) + GRACE;
      assert Settled(NOTHING.(since := Some(Stored(first))), now) && now - first < GRACE;
    }
  }

  /** The list behind a True condition had a base backup asked for. */
  predicate Attended(s: Status) {
    s.gapped == Some(true) ==> s.archive.Some? && s.archive.value.gaps in s.attempts
  }

  /**
    A pass that records a list it cannot judge, for want of the Backups, or judges
    settled at once, for having taken the grace period itself.
  */
  ghost predicate Skips(p: Pass) {
    && p.patched && p.enabled && p.observed && Current(p.report, p.read) && p.report.value.gaps != []
    && (!p.listed || (Open(p, p.report.value.gaps) && p.judgedAt - p.at >= GRACE))
  }

  /** In any other pass, every list that makes the condition True gets its own attempt. */
  lemma EveryListAttended(s: Status, p: Pass, a: Option<Archive>, t: Status, first: int)
    requires Clocked(s, first) && Attended(s) && Step(s, p, a, t)
    requires !Skips(p)
    ensures Attended(t)
    ensures s.gapped == t.gapped == Some(true) ==> SameList(s, t)
  {
    if p.patched && p.enabled && Turned(s, t) {
      assert t.attempts[|s.attempts|] == a.value.gaps;
    }
  }

  /** And only in those: a True condition may cover a list such a pass brought in. */
  lemma AttendedIff(p: Pass)
    ensures (forall s, a, t, first :: Clocked(s, first) && Attended(s) && Step(s, p, a, t) ==> Attended(t)) <==>
            !Skips(p)
  {
    if Skips(p) {
      var r := p.report.value;
      var at := EarliestFork(r.forks);
      var other := r.gaps + [0];
      var s := Status(Some(NOTHING.(gaps := other, since := Some(0))), Some(true), [other]);
      var forks := seq(|r.forks|, i requires 0 <= i < |r.forks| => r.forks[i].0);
      var a := Archive(forks, at, r.disowned, r.gaps, r.covered, r.oldest, Some(p.at), r.frontier);
      var t := Status(Kept(Some(a)), Some(true), [other]);
      assert Step(s, p, Some(a), t) && Clocked(s, 0);
      assert |other| != |r.gaps|;
      assert !Attended(t);
    } else {
      forall s, a, t, first | Clocked(s, first) && Attended(s) && Step(s, p, a, t) ensures Attended(t) {
        EveryListAttended(s, p, a, t, first);
      }
    }
  }

  lemma {:induction false} EarliestFork(forks: seq<(int, Option<int>)>) returns (at: Option<int>)
    ensures Earliest(forks, at)
  {
    if forks == [] {
      at := None;
    } else {
      var k := |forks| - 1;
      var was := EarliestFork(forks[..k]);
      at := if forks[k].1.Some? && (was.None? || forks[k].1.value < was.value) then forks[k].1 else was;
      NextEarliest(forks, k, was, at);
      assert forks[..k + 1] == forks;
    }
  }

  predicate SameList(s: Status, t: Status) {
    s.archive.Some? && t.archive.Some? && s.archive.value.gaps == t.archive.value.gaps
  }

  /** When a list was first recorded, pass by pass. */
  ghost predicate FirstRecorded(passes: seq<Pass>, trace: seq<Status>, firsts: seq<int>)
    requires |trace| == |firsts|
  {
    forall k :: 0 <= k < |passes| && k + 1 < |trace| && passes[k].patched && passes[k].enabled ==>
      firsts[k + 1] == First(firsts[k], trace[k], passes[k], trace[k + 1])
  }

  /**
    After a pass that could judge it, a True condition stood for the grace period,
    less the fraction of a second its clock lost, and an open list that stood for
    all of it made the condition True.
  */
  ghost predicate Stood(p: Pass, t: Status, first: int) {
    p.patched && p.enabled && p.listed && t.archive.Some? ==>
      && (t.gapped == Some(true) ==> Open(p, t.archive.value.gaps) && p.judgedAt - first > GRACE - SECOND)
      && (Open(p, t.archive.value.gaps) && p.judgedAt - first >= GRACE ==> t.gapped == Some(true))
  }

  /** None of the first `n` passes skips a list. */
  ghost predicate NoneSkips(passes: seq<Pass>, n: nat)
    requires n <= |passes|
  {
    forall k :: 0 <= k < n ==> !Skips(passes[k])
  }

  /**
    Over any run, a list that stood for the grace period is what makes the
    condition True. As long as no pass skips a list, none goes without its attempt,
    and two lists' True verdicts have another verdict between them.
  */
  method GapRun(passes: seq<Pass>) returns (trace: seq<Status>, firsts: seq<int>)
    ensures |trace| == |firsts| == |passes| + 1 && FirstRecorded(passes, trace, firsts)
    ensures AllStood(passes, trace, firsts) && AllAttended(passes, trace)
  {
    hide Step, Clocked, First, FirstRecorded, AllStood, AllAttended;
    var s := Status(None, None, []);
    trace, firsts := [s], [0];
    GapStart(passes);
    for k := 0 to |passes|
      invariant |trace| == |firsts| == k + 1 && s == trace[k] && Clocked(s, firsts[k])
      invariant FirstRecorded(passes, trace, firsts) && AllStood(passes, trace, firsts) && AllAttended(passes, trace)
    {
      var t, a := PatchStatus(s, passes[k]);
      var first := if passes[k].patched && passes[k].enabled then First(firsts[k], s, passes[k], t) else firsts[k];
      ClockKept(s, passes[k], a, t, firsts[k], first);
      StoodOnce(passes, trace, firsts, t, first);
      AttendedOnce(passes, trace, t, a, firsts[k]);
      trace, firsts := trace + [t], firsts + [first];
      s := t;
    }
  }

  ghost predicate AllStood(passes: seq<Pass>, trace: seq<Status>, firsts: seq<int>)
    requires |trace| == |firsts| <= |passes| + 1
  {
    forall k :: 0 <= k < |trace| - 1 ==> Stood(passes[k], trace[k + 1], firsts[k + 1])
  }

  ghost predicate AllAttended(passes: seq<Pass>, trace: seq<Status>)
    requires |trace| <= |passes| + 1
  {
    && (forall k :: 0 <= k < |trace| && NoneSkips(passes, k) ==> Attended(trace[k]))
    && forall k :: 0 <= k < |trace| - 1 && NoneSkips(passes, k + 1) ==>
         (trace[k].gapped == trace[k + 1].gapped == Some(true) ==> SameList(trace[k], trace[k + 1]))
  }

  lemma StoodOnce(passes: seq<Pass>, trace: seq<Status>, firsts: seq<int>, t: Status, first: int)
    requires 0 < |trace| == |firsts| <= |passes| && FirstRecorded(passes, trace, firsts) &&
             AllStood(passes, trace, firsts)
    requires Stood(passes[|trace| - 1], t, first)
    requires var k := |trace| - 1;
             first == if passes[k].patched && passes[k].enabled then First(firsts[k], trace[k], passes[k],
                                                                           t) else firsts[k]
    ensures FirstRecorded(passes, trace + [t], firsts + [first]) && AllStood(passes, trace + [t], firsts + [first])
  {
    hide Stood, First;
  }

  lemma AttendedOnce(passes: seq<Pass>, trace: seq<Status>, t: Status, a: Option<Archive>, first: int)
    requires 0 < |trace| <= |passes| && AllAttended(passes, trace)
    requires Clocked(trace[|trace| - 1], first) && Step(trace[|trace| - 1], passes[|trace| - 1], a, t)
    ensures AllAttended(passes, trace + [t])
  {
    var k := |trace| - 1;
    if NoneSkips(passes, k + 1) {
      assert NoneSkips(passes, k);
      EveryListAttended(trace[k], passes[k], a, t, first);
    }
    hide Step, Clocked, Attended;
  }

  lemma GapStart(passes: seq<Pass>)
    ensures Clocked(Status(None, None, []), 0) && FirstRecorded(passes, [Status(None, None, [])], [0])
    ensures AllStood(passes, [Status(None, None, [])], [0]) && AllAttended(passes, [Status(None, None, [])])
  {
  }

  lemma ClockKept(s: Status, p: Pass, a: Option<Archive>, t: Status, first: int, next: int)
    requires Clocked(s, first) && Step(s, p, a, t)
    requires next == if p.patched && p.enabled then First(first, s, p, t) else first
    ensures Clocked(t, next) && Stood(p, t, next)
  {
    if p.patched && p.enabled {
      GapStood(s, p, a, t, first);
    }
  }

  /** A failed listing leaves the condition True over a new list, which then never gets one. */
  lemma StaleVerdictSkipsAttempt()
    ensures exists s: Status, p: Pass, a: Option<Archive>, t: Status, q: Pass, u: Status ::
      && Clocked(s, 0) && Attended(s) && Step(s, p, a, t) && !p.listed
      && q.listed && q.patched && q.enabled && Step(t, q, a, u) && u.gapped == Some(true) && !Attended(u)
  {
    var one := NOTHING.(gaps := [1], since := Some(0));
    var two := NOTHING.(gaps := [2], since := Some(500000));
    var s := Status(Some(one), Some(true), [[1]]);
    var t := s.(archive := Some(two));
    var report := Report(true, 1, [], 0, [2], 0, 0, 0);
    var p := Pass(true, true, 1, 1, Some(report), 500000, false, Absent, gap => Unreadable, 500000, true);
    var q := p.(at := 1000000, listed := true, judgedAt := 1000000);
    assert Step(s, p, Some(two), t);
    assert Step(t, q, Some(two), t);
    assert t.archive.value.gaps[0] != [1][0];
  }

  // ---- The position snapshot ----

  /** What an instance had executed at an instant, as a set of numbered transactions. */
  type History = (nat, int) -> set<nat>

  type Positions = map<nat, set<nat>>

  /** An instance that is not re-cloned only adds to its set. */
  ghost predicate Growing(executed: History, i: nat) {
    forall t, u :: t <= u ==> executed(i, t) <= executed(i, u)
  }

  ghost predicate Held(executed: History, positions: Positions, from: int, to: int) {
    forall i :: i in positions ==> exists t :: from <= t <= to && positions[i] == executed(i, t)
  }

  /** Positions read this pass replace the recorded ones; an instance that did not answer keeps its own. */
  method MergePositions(names: seq<nat>, observed: Positions, recorded: Positions) returns (merged: Positions)
    ensures forall i :: i in merged <==> i in names && (i in observed || i in recorded)
    ensures forall i :: i in merged ==> merged[i] == if i in observed then observed[i] else recorded[i]
  {
    merged := map[];
    for k := 0 to |names|
      invariant forall i :: i in merged <==> i in names[..k] && (i in observed || i in recorded)
      invariant forall i :: i in merged ==> merged[i] == if i in observed then observed[i] else recorded[i]
    {
      if names[k] in observed {
        merged := merged[names[k] := observed[names[k]]];
      } else if names[k] in recorded {
        merged := merged[names[k] := recorded[names[k]]];
      }
    }
  }

  /**
    What a pass read between two instants, and whether it wrote the snapshot:
    the status changed anyhow, or it was stale.
  */
  datatype Reading = Reading(names: seq<nat>, observed: Positions, from: int, to: int, write: bool)

  ghost predicate Consecutive(executed: History, readings: seq<Reading>) {
    && (forall k :: 0 <= k < |readings| ==> readings[k].from <= readings[k].to)
    && (forall k :: 0 <= k < |readings| ==> Held(executed, readings[k].observed, readings[k].from, readings[k].to))
    && (forall k :: 0 < k < |readings| ==> readings[k - 1].to <= readings[k].from)
  }

  /** The position of an instance that is not re-cloned stays recorded and does not shrink while it is listed. */
  ghost predicate NoneShrinks(executed: History, before: Positions, after: Positions, names: seq<nat>, write: bool) {
    forall i :: i in before && (!write || i in names) ==> i in after && (Growing(executed, i) ==> before[i] <= after[i])
  }

  ghost predicate Recorded(r: Reading, before: Positions, after: Positions) {
    if r.write && r.observed != map[] then
      && (forall i :: i in r.names && i in r.observed ==> i in after && after[i] == r.observed[i])
      && (forall i :: i in r.names && i !in r.observed && i in before ==> i in after && after[i] == before[i])
      && (forall i :: i in after ==> i in r.names)
    else after == before
  }

  /**
    Over any run, whoever answers when, what is recorded of an instance that is
    not re-cloned is a lower bound that only rises.
  */
  method SnapshotRun(executed: History, readings: seq<Reading>) returns (trace: seq<Positions>)
    requires Consecutive(executed, readings)
    ensures |trace| == |readings| + 1
    ensures forall k, i :: 0 <= k < |readings| && i in trace[k + 1] && Growing(executed, i) ==>
              trace[k + 1][i] <= executed(i, readings[k].to)
    ensures forall k :: 0 <= k < |readings| ==>
              NoneShrinks(executed, trace[k], trace[k + 1], readings[k].names,
                          readings[k].write && readings[k].observed != map[])
    // A pass that writes records what was read of each listed instance, keeps the others, and forgets those not listed.
    ensures forall k :: 0 <= k < |readings| ==> Recorded(readings[k], trace[k], trace[k + 1])
  {
    trace := [map[]];
    for k := 0 to |readings|
      invariant |trace| == k + 1
      invariant k == 0 ==> trace[0] == map[]
      invariant k > 0 ==> forall i :: i in trace[k] ==>
                exists t :: t <= readings[k - 1].to && trace[k][i] == executed(i, t)
      invariant forall l, i :: 0 <= l < k && i in trace[l + 1] && Growing(executed, i) ==>
                trace[l + 1][i] <= executed(i, readings[l].to)
      invariant forall l :: 0 <= l < k ==>
                  NoneShrinks(executed, trace[l], trace[l + 1], readings[l].names,
                              readings[l].write && readings[l].observed != map[])
      invariant forall l :: 0 <= l < k ==> Recorded(readings[l], trace[l], trace[l + 1])
    {
      var r, next := readings[k], trace[k];
      if r.observed != map[] && r.write {
        next := MergePositions(r.names, r.observed, trace[k]);
      }
      assert Held(executed, r.observed, r.from, r.to);
      forall i | i in next ensures exists t :: t <= r.to && next[i] == executed(i, t) {
        if i !in r.observed || next == trace[k] {
          assert i in trace[k];
        }
      }
      forall i | i in trace[k] && (!(r.write && r.observed != map[]) || i in r.names)
        ensures i in next && (Growing(executed, i) ==> trace[k][i] <= next[i])
      {
        if i in r.observed {
          var t :| r.from <= t <= r.to && r.observed[i] == executed(i, t);
          var u :| u <= readings[k - 1].to && trace[k][i] == executed(i, u);
        }
      }
      trace := trace + [next];
    }
  }
}
