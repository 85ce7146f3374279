/**
  Group Replication as the operator judges it: which views it believes, when it
  takes the group for quorate, blocked or gone, what it keeps of past views, and
  how it arms a recovery. Members and instances are numbered from 1; 0 is none.
*/
module GroupReplication {
  import opened Wrappers

  datatype State = Online | Recovering | Unreachable | Offline | Error
  datatype Member = Member(id: nat, state: State, primary: bool)

  /** What one instance reports: its own state and its view of the group. */
  datatype Report = Report(id: nat, state: State, members: seq<Member>)

  function OnlineCount(ms: seq<Member>): nat {
    if ms == [] then 0 else OnlineCount(ms[..|ms| - 1]) + if ms[|ms| - 1].state.Online? then 1 else 0
  }

  // ---- Which views are believed ----

  /** What is read off a view: its ONLINE members and its one ONLINE primary. A second primary ends the count. */
  datatype Tally = Tally(online: nat, primary: nat, split: bool)

  function Census(ms: seq<Member>): Tally {
    if ms == [] then Tally(0, 0, false) else Count(Census(ms[..|ms| - 1]), ms[|ms| - 1])
  }

  function Count(t: Tally, m: Member): Tally {
    if t.split || !m.state.Online? then t
    else if !m.primary then t.(online := t.online + 1)
    else if t.primary != 0 then Tally(t.online + 1, 0, true)
    else Tally(t.online + 1, m.id, false)
  }

  lemma {:induction false} CensusExact(ms: seq<Member>)
    ensures Census(ms).online <= OnlineCount(ms)
    ensures !Census(ms).split ==> Census(ms).online == OnlineCount(ms)
  {
    if ms != [] {
      CensusExact(ms[..|ms| - 1]);
    }
  }

  predicate OnlinePrimary(m: Member) {
    m.state.Online? && m.primary && m.id != 0
  }

  /** Some named ONLINE primary of the view is followed by another ONLINE primary. */
  predicate TwoPrimaries(ms: seq<Member>) {
    exists i, j :: 0 <= i < j < |ms| && OnlinePrimary(ms[i]) && ms[j].state.Online? && ms[j].primary
  }

  /** The second primary is the last of the first `j` members. */
  predicate CutAt(ms: seq<Member>, j: int)
    requires 0 < j <= |ms|
  {
    !TwoPrimaries(ms[..j - 1]) && TwoPrimaries(ms[..j])
  }

  /** The count is cut short exactly by a second primary; otherwise the primary is the one there is, if any. */
  lemma {:induction false} CensusPrimary(ms: seq<Member>)
    ensures Census(ms).split <==> TwoPrimaries(ms)
    ensures Census(ms).primary != 0 <==> !TwoPrimaries(ms) && exists i :: 0 <= i < |ms| && OnlinePrimary(ms[i])
    ensures forall i :: 0 <= i < |ms| && OnlinePrimary(ms[i]) && !TwoPrimaries(ms) ==> Census(ms).primary == ms[i].id
  {
    if ms != [] {
      var n := |ms| - 1;
      var rest := ms[..n];
      CensusPrimary(rest);
      assert forall i :: 0 <= i < n ==> rest[i] == ms[i];
      assert TwoPrimaries(rest) ==> TwoPrimaries(ms);
      if TwoPrimaries(ms) && !TwoPrimaries(rest) {
        var i, j :| 0 <= i < j < |ms| && OnlinePrimary(ms[i]) && ms[j].state.Online? && ms[j].primary;
        assert j == n && OnlinePrimary(rest[i]);
      }
    }
  }

  /** A count that was cut short counted the ONLINE members up to the second primary. */
  lemma {:induction false} CensusCut(ms: seq<Member>)
    requires Census(ms).split
    ensures exists j :: 0 < j <= |ms| && CutAt(ms, j) && Census(ms).online == OnlineCount(ms[..j])
  {
    hide TwoPrimaries;
    var n := |ms| - 1;
    var rest := ms[..n];
    CensusPrimary(ms);
    CensusPrimary(rest);
    if Census(rest).split {
      CensusCut(rest);
      var j :| 0 < j <= n && CutAt(rest, j) && Census(rest).online == OnlineCount(rest[..j]);
      assert rest[..j] == ms[..j] && rest[..j - 1] == ms[..j - 1] && CutAt(ms, j);
    } else {
      CensusExact(rest);
      assert ms[..n + 1] == ms && CutAt(ms, n + 1);
    }
  }

  lemma {:induction false} SplitStays(ms: seq<Member>, k: nat)
    requires k <= |ms| && Census(ms[..k]).split
    ensures Census(ms) == Census(ms[..k])
    decreases |ms|
  {
    if k < |ms| {
      assert ms[..|ms| - 1][..k] == ms[..k];
      SplitStays(ms[..|ms| - 1], k);
    } else {
      assert ms[..k] == ms;
    }
  }

  method TakeCensus(ms: seq<Member>) returns (t: Tally)
    ensures t == Census(ms) && (t.split <==> TwoPrimaries(ms))
    ensures !t.split ==> t.online == OnlineCount(ms)
    ensures !t.split ==> forall i :: 0 <= i < |ms| && OnlinePrimary(ms[i]) ==> t.primary == ms[i].id
    ensures t.primary != 0 ==> exists i :: 0 <= i < |ms| && OnlinePrimary(ms[i])
  {
    CensusPrimary(ms);
    CensusExact(ms);
    t := Tally(0, 0, false);
    for k := 0 to |ms|
      invariant t == Census(ms[..k]) && !t.split
    {
      assert ms[..k + 1][..k] == ms[..k];
      t := Count(t, ms[k]);
      if t.split {
        SplitStays(ms, k + 1);
        return;
      }
    }
    assert ms[..|ms|] == ms;
  }

  /** An instance is believed if it is ONLINE and sees a majority of its view ONLINE. */
  predicate Believed(r: Option<Report>) {
    r.Some? && r.value.state.Online? && Census(r.value.members).online * 2 > |r.value.members|
  }

  type Reports = map<nat, Report>

  function Of(reports: Reports, name: nat): (r: Option<Report>)
    ensures r.Some? <==> name in reports
    ensures r.Some? ==> r.value == reports[name]
  {
    if name in reports then Some(reports[name]) else None
  }

  /** How many of the named instances are believed, and how many of them name a given primary. */
  ghost function Voters(names: seq<nat>, reports: Reports): nat {
    if names == [] then 0
    else Voters(names[..|names| - 1], reports) + if Believed(Of(reports, names[|names| - 1])) then 1 else 0
  }

  predicate VotesFor(r: Option<Report>, id: nat) {
    Believed(r) && Census(r.value.members).primary == id
  }

  function Votes(names: seq<nat>, reports: Reports, id: nat): nat {
    if names == [] then 0
    else Votes(names[..|names| - 1], reports, id) + if VotesFor(Of(reports, names[|names| - 1]), id) then 1 else 0
  }

  function Max(a: nat, b: nat): nat {
    if a > b then a else b
  }

  function Min(a: nat, b: nat): nat {
    if a < b then a else b
  }

  function LargestView(names: seq<nat>, reports: Reports): nat {
    if names == [] then 0
    else
      var r := Of(reports, names[|names| - 1]);
      Max(LargestView(names[..|names| - 1], reports), if Believed(r) then |r.value.members| else 0)
  }

  /** The first named instance that is believed. */
  predicate FirstBelieved(names: seq<nat>, reports: Reports, i: int) {
    0 <= i < |names| && Believed(Of(reports, names[i])) && forall j :: 0 <= j < i ==> !Believed(Of(reports, names[j]))
  }

  lemma FirstNow(names: seq<nat>, reports: Reports, k: nat)
    requires k < |names| && Believed(Of(reports, names[k])) && forall n :: n in names[..k] ==> !Believed(Of(reports, n))
    ensures FirstBelieved(names, reports, k)
  {
    forall j | 0 <= j < k ensures !Believed(Of(reports, names[j])) {
      assert names[..k][j] == names[j];
    }
  }

  /** Goes through the named instances once: the first believed view, the votes, and the largest view. */
  method Poll(names: seq<nat>, reports: Reports) returns (view: Option<Report>, votes: map<nat, nat>, viewMax: nat)
    ensures view.None? ==> forall n :: n in names ==> !Believed(Of(reports, n))
    ensures view.Some? ==> exists i :: FirstBelieved(names, reports, i) && view == Of(reports, names[i])
    ensures viewMax == LargestView(names, reports)
    ensures forall id :: id != 0 ==> Votes(names, reports, id) == if id in votes then votes[id] else 0
    ensures 0 !in votes
  {
    hide Believed, VotesFor, Votes, LargestView;
    view, votes, viewMax := None, map[], 0;
    PollStep(names, reports, 0);
    for k := 0 to |names|
      invariant view.None? ==> forall n :: n in names[..k] ==> !Believed(Of(reports, n))
      invariant view.Some? ==> exists i :: i < k && FirstBelieved(names, reports, i) && view == Of(reports, names[i])
      invariant viewMax == LargestView(names[..k], reports)
      invariant forall id :: id != 0 ==> Votes(names[..k], reports, id) == if id in votes then votes[id] else 0
      invariant 0 !in votes
    {
      assert names[..k + 1] == names[..k] + [names[k]];
      PollStep(names, reports, k + 1);
      var r := Of(reports, names[k]);
      if r.None? || !r.value.state.Online? {
        Unbelieved(r);
        continue;
      }
      var t := TakeCensus(r.value.members);
      Unbelieved(r);
      if t.online * 2 <= |r.value.members| {
        continue;
      }
      if view.None? {
        FirstNow(names, reports, k);
        view := r;
      }
      viewMax := Max(viewMax, |r.value.members|);
      if t.primary != 0 {
        votes := votes[t.primary := 1 + if t.primary in votes then votes[t.primary] else 0];
      }
    }
    assert names[..|names|] == names;
  }

  lemma Unbelieved(r: Option<Report>)
    ensures Believed(r) <==> r.Some? && r.value.state.Online? && Census(r.value.members).online * 2 > |r.value.members|
    ensures forall id :: VotesFor(r, id) <==> Believed(r) && Census(r.value.members).primary == id
  {
  }

  lemma PollStep(names: seq<nat>, reports: Reports, k: nat)
    requires k <= |names|
    ensures k == 0 ==> LargestView(names[..k], reports) == 0 && forall id :: Votes(names[..k], reports, id) == 0
    ensures k > 0 ==> LargestView(names[..k], reports) == Max(LargestView(names[..k - 1], reports),
      if Believed(Of(reports, names[k - 1])) then |reports[names[k - 1]].members| else 0)
    ensures k > 0 ==> forall id ::
              Votes(names[..k], reports, id) ==
              Votes(names[..k - 1], reports, id) + if VotesFor(Of(reports, names[k - 1]), id) then 1 else 0
  {
    if k > 0 {
      assert names[..k][..k - 1] == names[..k - 1];
    }
  }

  /** What a pass makes of the group. */
  datatype Observation = Observation(primary: Option<nat>, members: seq<Member>, quorate: bool, viewMax: nat,
                                     onlineMax: nat)

  function Denominator(configured: nat, observedMax: nat, currentMax: nat): nat {
    if observedMax > 0 && observedMax >= configured then observedMax else currentMax
  }

  /**
    The first believed view stands for the group, and the primary is one that more
    believed instances name than half the largest view. There is no observation
    exactly if no instance is believed.
  */
  method ObserveGroup(names: seq<nat>, reports: Reports, configured: nat, observedMax: nat)
    returns (o: Option<Observation>, ghost elected: nat)
    ensures o.None? <==> forall n :: n in names ==> !Believed(Of(reports, n))
    ensures o.Some? ==>
              exists i :: FirstBelieved(names, reports, i) && o.value.members == Of(reports, names[i]).value.members
    ensures o.Some? ==>
              o.value.viewMax == LargestView(names, reports) && o.value.onlineMax == OnlineCount(o.value.members) > 0
    ensures o.Some? ==>
              (o.value.quorate <==> o.value.onlineMax * 2 > Denominator(configured, observedMax, o.value.viewMax))
    // A group that once had its configured size is measured by that size, one still growing by its largest view.
    ensures o.Some? && 0 < observedMax && configured <= observedMax ==>
              (o.value.quorate <==> 2 * OnlineCount(o.value.members) > observedMax)
    ensures o.Some? && (observedMax == 0 || observedMax < configured) ==>
              (o.value.quorate <==> 2 * OnlineCount(o.value.members) > LargestView(names, reports))
    ensures o.Some? && elected != 0 ==> Votes(names, reports, elected) * 2 > o.value.viewMax
    ensures o.Some? && elected == 0 ==> forall id :: id != 0 ==> Votes(names, reports, id) * 2 <= o.value.viewMax
    ensures o.Some? ==>
              (o.value.primary.Some? <==> elected != 0 && exists n :: n in reports && reports[n].id == elected)
    ensures o.Some? && o.value.primary.Some? ==>
              o.value.primary.value in reports && reports[o.value.primary.value].id == elected
  {
    hide Votes, LargestView;
    var view, votes, viewMax := Poll(names, reports);
    elected := 0;
    if view.None? {
      return None, 0;
    }
    var primary := None;
    var winners := set id | id in votes && votes[id] * 2 > viewMax;
    if winners == {} {
      assert forall id :: id in votes ==> id !in winners;
    } else {
      var id :| id in winners;
      elected := id;
      var holders := set n | n in reports && reports[n].id == id;
      if holders == {} {
        assert forall n :: n in reports ==> n !in holders;
      } else {
        var n :| n in holders;
        primary := Some(n);
      }
    }
    var online := CountOnline(view.value.members);
    CensusExact(view.value.members);
    o := Some(Observation(primary, view.value.members, online * 2 > Denominator(configured, observedMax, viewMax),
                          viewMax, online));
  }

  method CountOnline(ms: seq<Member>) returns (n: nat)
    ensures n == OnlineCount(ms)
  {
    n := 0;
    for k := 0 to |ms|
      invariant n == OnlineCount(ms[..k])
    {
      assert ms[..k + 1][..k] == ms[..k];
      if ms[k].state.Online? {
        n := n + 1;
      }
    }
    assert ms[..|ms|] == ms;
  }

  /** No two can be elected while no more instances are believed than the largest view has members. */
  lemma {:induction false} OnePrimary(names: seq<nat>, reports: Reports, a: nat, b: nat)
    requires a != b
    ensures Votes(names, reports, a) + Votes(names, reports, b) <= Voters(names, reports)
    ensures Voters(names, reports) <= LargestView(names, reports) ==>
              Votes(names, reports, a) * 2 <= LargestView(names, reports) ||
              Votes(names, reports, b) * 2 <= LargestView(names, reports)
  {
    if names != [] {
      OnePrimary(names[..|names| - 1], reports, a, b);
    }
  }

  // ---- Verdicts ----

  /** What the status keeps of the group: the sticky fields and the last observation's. */
  datatype Group = Group(bootstrapped: bool, viewMax: nat, onlineMax: nat, quorate: bool, members: seq<Member>)

  ghost predicate QuorumLost(group: Option<Group>, o: Option<Observation>, instances: nat) {
    && group.Some? && group.value.bootstrapped
    && if o.None? then group.value.viewMax == 0 || group.value.viewMax >= instances
       else OnlineCount(o.value.members) * 2 <=
            if group.value.viewMax > 0 then group.value.viewMax else |o.value.members|
  }

  /**
    Nothing is lost before the group was bootstrapped. Without a view it is lost if
    it once had the size asked for, or a recovery is under way; with one, if no
    majority of the kept size is ONLINE, or, that being reset, of the view itself.
  */
  method IsQuorumLost(group: Option<Group>, o: Option<Observation>, instances: nat) returns (lost: bool)
    ensures lost <==> QuorumLost(group, o, instances)
    ensures group.None? || !group.value.bootstrapped ==> !lost
    ensures group.Some? && group.value.bootstrapped && o.None? && 0 < group.value.viewMax < instances ==> !lost
    ensures group.Some? && group.value.bootstrapped && o.None? && group.value.viewMax == 0 ==> lost
    ensures group.Some? && group.value.bootstrapped && o.None? && instances <= group.value.viewMax ==> lost
    ensures group.Some? && group.value.bootstrapped && o.Some? && group.value.viewMax > 0 ==>
              (lost <==> OnlineCount(o.value.members) <= group.value.viewMax / 2)
    ensures group.Some? && group.value.bootstrapped && o.Some? && group.value.viewMax == 0 ==>
              (lost <==> OnlineCount(o.value.members) <= |o.value.members| / 2)
  {
    if group.None? || !group.value.bootstrapped {
      return false;
    }
    if o.None? {
      return group.value.viewMax == 0 || group.value.viewMax >= instances;
    }
    var denominator := group.value.viewMax;
    if denominator <= 0 {
      denominator := |o.value.members|;
    }
    var online := CountOnline(o.value.members);
    return online * 2 <= denominator;
  }

  ghost predicate SomeOnline(names: seq<nat>, reports: Reports) {
    exists n :: n in names && n in reports && reports[n].state.Online?
  }

  /**
    Observes the group and reads it as a total outage. In an established,
    bootstrapped group that is exactly if no instance is believed; what is kept of
    past views, reset or not, plays no part. So it means that no member is ONLINE
    exactly if none is, or one of those that are sees a majority: one that lost
    its majority is dropped from the observation, and a partial loss reads as a
    total one.
  */
  method IsFullOutage(names: seq<nat>, reports: Reports, configured: nat, group: Option<Group>, established: bool)
    returns (full: bool)
    ensures full <==> group.Some? && group.value.bootstrapped && established &&
                      forall n :: n in names ==> !Believed(Of(reports, n))
    ensures group.Some? && group.value.bootstrapped && established ==>
              ((full <==> !SomeOnline(names, reports)) <==>
               (!SomeOnline(names, reports) || exists n :: n in names && Believed(Of(reports, n))))
  {
    if n :| n in names && Believed(Of(reports, n)) {
      assert n in reports && reports[n].state.Online?;
    }
    var o;
    ghost var elected;
    o, elected := ObserveGroup(names, reports, configured, if group.Some? then group.value.viewMax else 0);
    if group.None? || !group.value.bootstrapped {
      return false;
    }
    if o.Some? {
      for k := 0 to |o.value.members|
        invariant forall j :: 0 <= j < k ==> !o.value.members[j].state.Online?
      {
        if o.value.members[k].state.Online? {
          return false;
        }
      }
      NoneOnline(o.value.members);
      assert false;
    }
    return established;
  }

  lemma {:induction false} NoneOnline(ms: seq<Member>)
    requires forall j :: 0 <= j < |ms| ==> !ms[j].state.Online?
    ensures OnlineCount(ms) == 0
  {
    if ms != [] {
      NoneOnline(ms[..|ms| - 1]);
    }
  }

  /** The survivor of a group of three, which still sees both others in its view. */
  const SURVIVOR := Report(1, Online,
                           [Member(1, Online, true), Member(2, Unreachable, false), Member(3, Unreachable, false)])

  method SurvivorReadsAsTotalOutage(viewMax: nat) returns (full: bool)
    ensures full && SomeOnline([1], map[1 := SURVIVOR])
  {
    var reports := map[1 := SURVIVOR];
    assert reports[1].state.Online?;
    var ms := SURVIVOR.members;
    assert ms[..2] == [ms[0], ms[1]] && ms[..2][..1] == [ms[0]] && [ms[0]][..0] == [];
    assert Census(ms[..2][..1]) == Count(Census([]), ms[0]);
    assert Census(ms[..2]) == Count(Census(ms[..2][..1]), ms[1]);
    assert Census(ms).online == 1;
    full := IsFullOutage([1], reports, 3, Some(Group(true, viewMax, viewMax, true, [])), true);
  }

  predicate DistinctIds(ms: seq<Member>) {
    forall i, j :: 0 <= i < j < |ms| ==> ms[i].id != ms[j].id
  }

  function OnlineIds(ms: seq<Member>): set<nat> {
    if ms == [] then {} else OnlineIds(ms[..|ms| - 1]) + if ms[|ms| - 1].state.Online? then {ms[|ms| - 1].id} else {}
  }

  lemma {:induction false} OnlineIdsBelong(ms: seq<Member>, id: nat)
    requires id in OnlineIds(ms)
    ensures exists i :: 0 <= i < |ms| && ms[i].id == id
  {
    var n := |ms| - 1;
    if id in OnlineIds(ms[..n]) {
      OnlineIdsBelong(ms[..n], id);
      var i :| 0 <= i < n && ms[..n][i].id == id;
      assert ms[i].id == id;
    } else {
      assert ms[n].id == id;
    }
  }

  lemma {:induction false} OnlineIdsSize(ms: seq<Member>)
    requires DistinctIds(ms)
    ensures |OnlineIds(ms)| == OnlineCount(ms)
  {
    if ms != [] {
      var n := |ms| - 1;
      OnlineIdsSize(ms[..n]);
      if ms[n].id in OnlineIds(ms[..n]) {
        OnlineIdsBelong(ms[..n], ms[n].id);
        assert false;
      }
    }
  }

  lemma SplitSize(x: set<nat>, y: set<nat>, whole: set<nat>)
    requires x <= whole && y <= whole && x !! y
    ensures |x| + |y| <= |whole|
  {
    assert |x + y| == |x| + |y|;
    assert whole == (x + y) + (whole - (x + y));
  }

  /** Two sides of a split of some members, with no ONLINE one in common. */
  ghost predicate Split(everyone: set<nat>, a: Observation, b: Observation) {
    && DistinctIds(a.members) && DistinctIds(b.members)
    && OnlineIds(a.members) <= everyone && OnlineIds(b.members) <= everyone &&
       OnlineIds(a.members) !! OnlineIds(b.members)
  }

  ghost predicate BothQuorate(group: Group, a: Observation, b: Observation, instances: nat) {
    !QuorumLost(Some(group), Some(a), instances) && !QuorumLost(Some(group), Some(b), instances)
  }

  /** Both sides can be read as quorate exactly if there are members for two majorities of the kept size. */
  lemma BothQuorateIff(group: Group, everyone: set<nat>, instances: nat)
    requires group.bootstrapped
    ensures (exists a: Observation, b: Observation :: Split(everyone, a, b) && BothQuorate(group, a, b, instances)) <==>
            2 * (group.viewMax / 2 + 1) <= |everyone|
  {
    hide OnlineIds, OnlineCount, QuorumLost, DistinctIds;
    var q := group.viewMax / 2 + 1;
    if 2 * q <= |everyone| {
      var x := Taken(everyone, q);
      assert |everyone - x| == |everyone| - |x|;
      var y := Taken(everyone - x, q);
      var a := AllOnline(x);
      var b := AllOnline(y);
      MajorityNeeded(group, a, instances);
      MajorityNeeded(group, b, instances);
      assert Split(everyone, a, b) && BothQuorate(group, a, b, instances);
    } else {
      forall a: Observation, b: Observation | Split(everyone, a, b) ensures !BothQuorate(group, a, b, instances) {
        OnlineIdsSize(a.members);
        OnlineIdsSize(b.members);
        SplitSize(OnlineIds(a.members), OnlineIds(b.members), everyone);
        MajorityNeeded(group, a, instances);
        MajorityNeeded(group, b, instances);
      }
    }
  }

  /** Quorate is a majority of the kept size, or, that being reset, of the view itself; an empty view is not. */
  lemma MajorityNeeded(group: Group, o: Observation, instances: nat)
    requires group.bootstrapped
    ensures !QuorumLost(Some(group), Some(o), instances) ==> OnlineCount(o.members) >= group.viewMax / 2 + 1
    ensures OnlineCount(o.members) >= group.viewMax / 2 + 1 && OnlineCount(o.members) == |o.members| ==>
              !QuorumLost(Some(group), Some(o), instances)
  {
  }

  /** So not out of no more members than the kept size. */
  lemma NeverBothQuorate(group: Group, a: Observation, b: Observation, everyone: set<nat>, instances: nat)
    requires group.bootstrapped && |everyone| <= group.viewMax && Split(everyone, a, b)
    ensures QuorumLost(Some(group), Some(a), instances) || QuorumLost(Some(group), Some(b), instances)
  {
    BothQuorateIff(group, everyone, instances);
    assert !(Split(everyone, a, b) && BothQuorate(group, a, b, instances));
  }

  /**
    Two sides of a split of a group that once had its configured size are not both
    observed as quorate, out of no more members than it had.
  */
  method ObserveSides(a: (seq<nat>, Reports), b: (seq<nat>, Reports), configured: nat, observedMax: nat,
                      ghost everyone: set<nat>) returns (x: Option<Observation>, y: Option<Observation>)
    requires 0 < observedMax && configured <= observedMax && |everyone| <= observedMax
    ensures x.Some? && y.Some? && Split(everyone, x.value, y.value) ==> !(x.value.quorate && y.value.quorate)
  {
    ghost var elected;
    x, elected := ObserveGroup(a.0, a.1, configured, observedMax);
    y, elected := ObserveGroup(b.0, b.1, configured, observedMax);
    if x.Some? && y.Some? && Split(everyone, x.value, y.value) {
      OnlineIdsSize(x.value.members);
      OnlineIdsSize(y.value.members);
      SplitSize(OnlineIds(x.value.members), OnlineIds(y.value.members), everyone);
    }
  }

  lemma {:induction false} Taken(s: set<nat>, n: nat) returns (r: set<nat>)
    requires n <= |s|
    ensures r <= s && |r| == n
  {
    if n == 0 {
      r := {};
    } else {
      var x :| x in s;
      r := Taken(s - {x}, n - 1);
      r := r + {x};
    }
  }

  /** An observation of just these members, all ONLINE. */
  lemma {:induction false} AllOnline(ids: set<nat>) returns (o: Observation)
    ensures DistinctIds(o.members) && OnlineIds(o.members) == ids && OnlineCount(o.members) == |ids| == |o.members|
    decreases |ids|
  {
    if ids == {} {
      o := Observation(None, [], false, 0, 0);
    } else {
      var x :| x in ids;
      var rest := AllOnline(ids - {x});
      forall i | 0 <= i < |rest.members| ensures rest.members[i].id != x {
        AllBelong(rest.members, i);
      }
      o := rest.(members := rest.members + [Member(x, Online, false)]);
      assert o.members[..|o.members| - 1] == rest.members;
    }
  }

  /** With as many ONLINE members as members, each is one of them. */
  lemma {:induction false} AllBelong(ms: seq<Member>, i: nat)
    requires i < |ms| && OnlineCount(ms) == |ms|
    ensures ms[i].id in OnlineIds(ms)
  {
    var n := |ms| - 1;
    CountBound(ms[..n]);
    if i < n {
      AllBelong(ms[..n], i);
    }
  }

  lemma {:induction false} CountBound(ms: seq<Member>)
    ensures OnlineCount(ms) <= |ms|
  {
    if ms != [] {
      CountBound(ms[..|ms| - 1]);
    }
  }

  /** With the kept size reset for a recovery, each side is measured by its own view, and both may keep it. */
  lemma ResetLetsBothKeepQuorum(group: Group, a: Observation, b: Observation)
    requires group == Group(true, 0, 0, false, [])
    requires a == Observation(Some(1), [Member(1, Online, true)], true, 1, 1) &&
             b == Observation(Some(2), [Member(2, Online, true)], true, 1, 1)
    ensures !QuorumLost(Some(group), Some(a), 3) && !QuorumLost(Some(group), Some(b), 3)
  {
    assert a.members[..0] == [] && b.members[..0] == [];
  }

  // ---- What is kept ----

  datatype Cluster = Cluster(instances: nat, group: Option<Group>, primary: Option<nat>, generation: nat)

  /** A size as it is, or cut down to the one asked for. */
  predicate Capped(kept: nat, size: nat, instances: nat) {
    if 0 < instances < size then kept == instances else kept == size
  }

  method MergeStatus(c: Cluster, o: Option<Observation>) returns (r: Cluster)
    ensures r.instances == c.instances && r.group.Some?
    ensures c.group.Some? && c.group.value.bootstrapped ==> r.group.value.bootstrapped
    ensures o.Some? && o.value.primary.Some? ==> r.primary == o.value.primary && r.group.value.bootstrapped
    ensures o.None? || o.value.primary.None? ==> r.primary == c.primary
    ensures r.generation == if r.primary != c.primary then c.generation + 1 else c.generation
    ensures r.group.value.bootstrapped ==>
              (c.group.Some? && c.group.value.bootstrapped) || (o.Some? && o.value.primary.Some?)
    // A view that regained quorum is taken at its size, otherwise the larger one stands; cut to the size asked for.
    ensures o.Some? && o.value.quorate && (c.group.None? || !c.group.value.quorate) ==>
              Capped(r.group.value.viewMax, o.value.viewMax, c.instances) &&
              Capped(r.group.value.onlineMax, o.value.onlineMax, c.instances)
    ensures o.None? || !o.value.quorate || (c.group.Some? && c.group.value.quorate) ==>
              var view := Max(if c.group.Some? then c.group.value.viewMax else 0,
                              if o.Some? then o.value.viewMax else 0);
              Capped(r.group.value.viewMax, view, c.instances)
    ensures o.None? || !o.value.quorate || (c.group.Some? && c.group.value.quorate) ==>
              var online := Max(if c.group.Some? then c.group.value.onlineMax else 0,
                                if o.Some? then o.value.onlineMax else 0);
              Capped(r.group.value.onlineMax, online, c.instances)
    ensures r.group.value.quorate ==> OnlineCount(r.group.value.members) * 2 > r.group.value.viewMax > 0
    ensures r.group.value.viewMax > 0 && OnlineCount(r.group.value.members) * 2 > r.group.value.viewMax ==>
              r.group.value.quorate
    ensures r.group.value.members == if o.Some? then o.value.members else []
    // The kept size falls only to the size asked for, or on regaining quorum.
    ensures c.group.Some? && r.group.value.viewMax < c.group.value.viewMax ==>
              (r.instances > 0 && r.group.value.viewMax == r.instances) ||
              (!c.group.value.quorate && o.Some? && o.value.quorate && r.group.value.viewMax == o.value.viewMax)
  {
    var g := Group(false, 0, 0, false, []);
    if c.group.Some? {
      g := g.(bootstrapped := c.group.value.bootstrapped, viewMax := c.group.value.viewMax,
              onlineMax := c.group.value.onlineMax);
    }
    r := c;
    if o.Some? {
      g := g.(members := o.value.members);
      if (c.group.None? || !c.group.value.quorate) && o.value.quorate {
        g := g.(viewMax := o.value.viewMax, onlineMax := o.value.onlineMax);
      } else {
        g := g.(viewMax := Max(g.viewMax, o.value.viewMax), onlineMax := Max(g.onlineMax, o.value.onlineMax));
      }
      if o.value.primary.Some? {
        g := g.(bootstrapped := true);
        if c.primary != o.value.primary {
          r := r.(generation := c.generation + 1);
        }
        r := r.(primary := o.value.primary);
      }
    }
    if c.instances > 0 {
      g := g.(viewMax := Min(g.viewMax, c.instances), onlineMax := Min(g.onlineMax, c.instances));
    }
    if g.viewMax > 0 {
      var online := CountOnline(g.members);
      g := g.(quorate := online * 2 > g.viewMax);
    }
    r := r.(group := Some(g));
  }

  /** What a merge persists as quorate is what the verdict on the same observation reads. */
  lemma VerdictsAgree(c: Cluster, o: Observation)
    requires c.group.Some? && c.group.value.bootstrapped && c.group.value.viewMax > 0 &&
             c.group.value.members == o.members
    requires c.group.value.quorate <==> OnlineCount(c.group.value.members) * 2 > c.group.value.viewMax
    ensures QuorumLost(c.group, Some(o), c.instances) <==> !c.group.value.quorate
  {
  }

  // ---- Arming a recovery ----

  /** What the survivor is told: to reset its view to an address, or to bootstrap the group anew. */
  datatype Doorbell = ForceMembers(address: nat) | Rebootstrap

  datatype Pod = Pod(running: bool, forceMembers: Option<nat>, rebootstrap: bool)

  predicate Armed(p: Pod, bell: Doorbell) {
    match bell
    case ForceMembers(address) => p.forceMembers == Some(address)
    case Rebootstrap => p.rebootstrap
  }

  function Rung(p: Pod, bell: Doorbell): (r: Pod)
    ensures Armed(r, bell) && r.running == p.running
  {
    match bell
    case ForceMembers(address) => p.(forceMembers := Some(address))
    case Rebootstrap => p.(rebootstrap := true)
  }

  class Recovery {
    var pods: map<nat, Pod>
    var viewMax: nat
    var annotated: bool
    /** How often a survivor's Pod was patched. */
    var patches: nat
    /** How many calls failed. */
    ghost var errors: nat

    constructor (pods: map<nat, Pod>, viewMax: nat, annotated: bool)
      ensures this.pods == pods && this.viewMax == viewMax && this.annotated == annotated && patches == 0 && errors == 0
    {
      this.pods, this.viewMax, this.annotated, patches, errors := pods, viewMax, annotated, 0, 0;
    }

    /**
      One pass with a survivor chosen, or none that is safe. A survivor whose bell
      is rung already is left alone, and so is the kept view size: a pass that rang
      it but could not reset that size is never made up for.
    */
    method Handle(total: bool, bootstrapped: bool, quorate: bool, survivor: Option<nat>, bell: Doorbell)
      returns (handled: Result<bool>, ghost rung: bool, ghost reset: bool)
      modifies this
      // A pass that gets its patch through rings the bell; if the reset then gets through too, the kept size is gone.
      ensures rung <==> patches != old(patches)
      ensures viewMax == if rung && reset then 0 else old(viewMax)
      ensures old(errors) <= errors && ((rung && !reset) || handled.Err? ==> old(errors) < errors)
      ensures handled.Err? ==> !rung && (total || annotated) && survivor.Some? && survivor.value in pods
      ensures survivor.Some? && survivor.value in old(pods) && Armed(old(pods)[survivor.value], bell) && bootstrapped &&
              (!quorate || total) ==>
                pods == old(pods) && viewMax == old(viewMax) && patches == old(patches) && annotated == old(annotated)
      ensures patches != old(patches) ==>
                && patches == old(patches) + 1 && bootstrapped && (!quorate || total) && (total || old(annotated))
                && survivor.Some? && survivor.value in old(pods) && old(pods)[survivor.value].running
                && !Armed(old(pods)[survivor.value], bell) &&
                   pods == old(pods)[survivor.value := Rung(old(pods)[survivor.value], bell)]
      ensures patches == old(patches) ==> pods == old(pods) && viewMax == old(viewMax)
      ensures handled == Ok(true) ==> survivor.Some? && survivor.value in pods && Armed(pods[survivor.value], bell)
      ensures handled == Ok(false) ==>
                !(total || old(annotated)) || !bootstrapped || (quorate && !total) || survivor.None? ||
                                       survivor.value !in old(pods) || !old(pods)[survivor.value].running
    {
      rung, reset := false, false;
      if !annotated && !total {
        return Ok(false), rung, reset;
      }
      if !bootstrapped || (quorate && !total) {
        ghost var cleared := ClearAnnotation();
        return Ok(false), rung, reset;
      }
      if survivor.None? || survivor.value !in pods || !pods[survivor.value].running {
        return Ok(false), rung, reset;
      }
      if Armed(pods[survivor.value], bell) {
        return Ok(true), rung, reset;
      }
      var accepted: bool := *;
      if !accepted {
        errors := errors + 1;
        return Err, rung, reset;
      }
      rung, pods, patches := true, pods[survivor.value := Rung(pods[survivor.value], bell)], patches + 1;
      var again: bool := *;
      if again {
        reset := true;
        viewMax := 0;
      } else {
        errors := errors + 1;
      }
      ghost var cleared := ClearAnnotation();
      return Ok(true), rung, reset;
    }

    method ClearAnnotation() returns (ghost cleared: bool)
      modifies this`annotated
      ensures annotated == (old(annotated) && !cleared)
    {
      var accepted: bool := *;
      cleared := accepted;
      if accepted {
        annotated := false;
      }
    }

    /**
      Any number of passes towards one recovery, with the Pod stopping and starting
      in between and its manager clearing the bell once it acted, patch the
      survivor once, and once more for each time it was cleared.
    */
    method Recover(total: bool, survivor: nat, bell: Doorbell, between: seq<Between>)
      modifies this
      ensures patches <= old(patches) + 1 + Clearings(between)
      ensures patches == old(patches) + 1 + Clearings(between) ==> survivor in pods && Armed(pods[survivor], bell)
    {
      for k := 0 to |between|
        invariant patches <= old(patches) + 1 + Clearings(between[..k])
        invariant patches == old(patches) + 1 + Clearings(between[..k]) ==>
                  survivor in pods && Armed(pods[survivor], bell)
      {
        assert between[..k + 1][..k] == between[..k];
        if survivor in pods {
          var p := pods[survivor].(running := between[k].running);
          pods := pods[survivor := if between[k].cleared then p.(forceMembers := None, rebootstrap := false) else p];
        }
        var handled;
        ghost var rung, reset;
        handled, rung, reset := Handle(total, true, false, Some(survivor), bell);
      }
      assert between[..|between|] == between;
    }
  }

  /** What happens to the survivor's Pod between two passes. */
  datatype Between = Between(running: bool, cleared: bool)

  ghost function Clearings(between: seq<Between>): nat {
    if between == [] then 0 else Clearings(between[..|between| - 1]) + if between[|between| - 1].cleared then 1 else 0
  }
}
