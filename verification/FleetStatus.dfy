/**
 What a ReplicaSet pass reports: the rollout summary behind PlacementRolledOut,
 the per-cluster counts and listings, and the aggregate Ready condition.
 */
module FleetStatus {
  import opened Fleet
  import opened FleetRollout
  import opened Ordering

  const MAX_INT32 := 0x7fff_ffff
  const MAX_REPORTED_CLUSTERS := 100
  const MAX_REPORTED_FAILED_CLUSTERS := 50

  function CountInt32(n: int): int {
    if n > MAX_INT32 then MAX_INT32 else n
  }

  // ---------------------------------------------------- what the plan settles

  /** What the last verdict says once the SDK's assumptions are used. */
  lemma {:induction false} VerdictIsExisting(rs: ReplicaSet, s: Snapshot, refs: seq<Ref>, c: string)
    requires SdkOk(rs, s, refs) && c in Selected(refs)
    ensures var (summary, status) := LastVerdict(rs, s, refs, c);
            && summary.cluster == c && summary.reason != ImmutableChildDrift
            && (c !in TimedOutBy(refs) ==> summary == Existing(rs, s, c).0)
            && (c !in TimedOutBy(refs) && c !in RolledOutBy(refs) ==> status == Existing(rs, s, c).1)
            && (c in TimedOutBy(refs) ==> summary.phase != ReadyPhase)
  {
    var front, last := refs[..|refs| - 1], refs[|refs| - 1];
    if c in TimedOutBy(refs) {
      TimedOutIsUnfinished(rs, s, refs, c);
    }
    if c in last.clusters {
      JudgedIsExisting(rs, s, last, c);
    } else {
      assert FromGroups(last);
      VerdictIsExisting(rs, s, front, c);
    }
  }

  lemma JudgedIsExisting(rs: ReplicaSet, s: Snapshot, ref: Ref, c: string)
    requires TimesOutUnfinished(rs, s, ref)
    ensures var (summary, status) := Judged(rs, s, ref.decision, c);
            && summary.cluster == c && summary.reason != ImmutableChildDrift
            && (c !in NamedIn(ref.decision.timeOut) ==> summary == Existing(rs, s, c).0)
            && (c !in NamedIn(ref.decision.timeOut) && c !in NamedIn(ref.decision.toRollout) ==>
                 status == Existing(rs, s, c).1)
            && (c in NamedIn(ref.decision.timeOut) ==> summary.phase != ReadyPhase)
  {
    LastReportIsReported(ref.decision.timeOut, c);
    LastReportIsReported(ref.decision.toRollout, c);
  }

  lemma {:induction false} TimedOutIsUnfinished(rs: ReplicaSet, s: Snapshot, refs: seq<Ref>, c: string)
    requires SdkOk(rs, s, refs) && c in TimedOutBy(refs)
    ensures Existing(rs, s, c).1 != Succeeded && Existing(rs, s, c).0.phase != ReadyPhase
  {
    var front, last := refs[..|refs| - 1], refs[|refs| - 1];
    if c in NamedIn(last.decision.timeOut) {
      assert TimesOutUnfinished(rs, s, last);
    } else {
      TimedOutIsUnfinished(rs, s, front, c);
    }
  }

  lemma {:induction false} NamedAreSelected(refs: seq<Ref>)
    requires forall i :: 0 <= i < |refs| ==> FromGroups(refs[i])
    ensures RolledOutBy(refs) + TimedOutBy(refs) <= Selected(refs)
  {
    if refs != [] {
      NamedAreSelected(refs[..|refs| - 1]);
      assert FromGroups(refs[|refs| - 1]);
    }
  }

  // ------------------------------------------------------ PlacementRolledOut

  datatype RolloutSummary = RolloutSummary(
    total: int, updating: int, succeeded: int, failed: int, timedOut: int, complete: bool)

  /** The clusters outside both SDK sets whose status is `outcome`. */
  function Outside(updating: set<string>, timedOut: set<string>, statuses: map<string, Progress>,
                   outcome: Progress): set<string> {
    set c <- statuses.Keys | c !in updating && c !in timedOut && statuses[c] == outcome
  }

  ghost predicate Summarizes(r: RolloutSummary, total: int, p: Plan) {
    && r.total == total
    && r.updating == |p.rollout|
    && r.succeeded == |Outside(p.rollout, p.timedOut, p.statuses, Succeeded)|
    && r.failed == |Outside(p.rollout, p.timedOut, p.statuses, FailedProgress)|
    && r.timedOut == |p.timedOut| + |Outside(p.rollout, p.timedOut, p.statuses, TimeOut)|
    && (r.complete <==> r.succeeded == r.total && r.failed == 0 && r.timedOut == 0 && r.updating == 0)
  }

  /** newReplicaSetRolloutSummary. */
  method NewRolloutSummary(total: int, p: Plan) returns (r: RolloutSummary)
    requires |p.rollout| <= MAX_INT32 && |p.timedOut| <= MAX_INT32
    ensures Summarizes(r, total, p)
  {
    var updating, timedOut, statuses := p.rollout, p.timedOut, p.statuses;
    var succeeded, failed, late := 0, 0, CountInt32(|timedOut|);
    var todo := statuses.Keys;
    while todo != {}
      invariant todo <= statuses.Keys
      invariant succeeded == |Outside(updating, timedOut, statuses, Succeeded) - todo|
      invariant failed == |Outside(updating, timedOut, statuses, FailedProgress) - todo|
      invariant late == |timedOut| + |Outside(updating, timedOut, statuses, TimeOut) - todo|
    {
      var c :| c in todo;
      OutsideGrows(updating, timedOut, statuses, todo, c, Succeeded);
      OutsideGrows(updating, timedOut, statuses, todo, c, FailedProgress);
      OutsideGrows(updating, timedOut, statuses, todo, c, TimeOut);
      if c !in updating && c !in timedOut {
        match statuses[c] {
          case Succeeded => succeeded := succeeded + 1;
          case FailedProgress => failed := failed + 1;
          case TimeOut => late := late + 1;
          case _ =>
        }
      }
      todo := todo - {c};
    }
    EmptyTodo(Outside(updating, timedOut, statuses, Succeeded));
    EmptyTodo(Outside(updating, timedOut, statuses, FailedProgress));
    EmptyTodo(Outside(updating, timedOut, statuses, TimeOut));
    r := RolloutSummary(total, CountInt32(|updating|), succeeded, failed, late,
                        succeeded == total && failed == 0 && late == 0 && CountInt32(|updating|) == 0);
  }

  lemma EmptyTodo(s: set<string>)
    ensures |s - {}| == |s|
  {
    assert s - {} == s;
  }

  lemma OutsideGrows(updating: set<string>, timedOut: set<string>, statuses: map<string, Progress>,
                     todo: set<string>, c: string, outcome: Progress)
    requires c in todo && todo <= statuses.Keys
    ensures var all := Outside(updating, timedOut, statuses, outcome);
            |all - (todo - {c})| ==
              |all - todo| + if c !in updating && c !in timedOut && statuses[c] == outcome then 1 else 0
  {
    var all := Outside(updating, timedOut, statuses, outcome);
    if c in all {
      assert all - (todo - {c}) == (all - todo) + {c};
    } else {
      assert all - (todo - {c}) == all - todo;
    }
  }

  predicate RolledOutAt(rs: ReplicaSet, s: Snapshot, c: string) {
    c in s.namespaces && HasChild(s, c)
    && Owns(rs, ChildOf(s, c)) && !Drifts(rs, ChildOf(s, c))
    && ChildOf(s, c).ready == Reported(true, ChildOf(s, c).generation)
  }

  /** The SDK names no cluster, and every selected cluster is rolled out. */
  ghost predicate AllRolledOut(rs: ReplicaSet, s: Snapshot, refs: seq<Ref>) {
    && RolledOutBy(refs) == {} && TimedOutBy(refs) == {}
    && forall c :: c in Selected(refs) ==> RolledOutAt(rs, s, c)
  }

  lemma FullSubset(part: set<string>, whole: set<string>)
    requires part <= whole && |part| == |whole|
    ensures part == whole
  {
    assert whole == part + (whole - part);
    assert whole - part == {};
  }

  lemma {:induction false} SubsetSize(part: set<string>, whole: set<string>)
    requires part <= whole
    ensures |part| <= |whole|
  {
    if c :| c in part {
      SubsetSize(part - {c}, whole - {c});
    }
  }

  /**
   PlacementRolledOut=True exactly when the SDK holds nothing back and every
   cluster of the union of all refs has its namespace and an owned, drift-free
   child that is Ready at its own generation.
   */
  lemma RolledOutIff(rs: ReplicaSet, s: Snapshot, refs: seq<Ref>, p: Plan, r: RolloutSummary)
    requires Indexes(rs, s) && SdkOk(rs, s, refs) && IsPlan(rs, s, refs, p)
    requires Summarizes(r, |Selected(refs)|, p)
    ensures r.complete <==> AllRolledOut(rs, s, refs)
  {
    CompleteIff(p, r, Selected(refs));
    if p.rollout == {} && p.timedOut == {} {
      forall c | c in Selected(refs)
        ensures c in Outside(p.rollout, p.timedOut, p.statuses, Succeeded) <==> RolledOutAt(rs, s, c)
      {
        UnheldClusterIsDone(rs, s, refs, p, c);
      }
    }
  }

  lemma CompleteIff(p: Plan, r: RolloutSummary, selected: set<string>)
    requires p.statuses.Keys == selected && Summarizes(r, |selected|, p)
    ensures r.complete <==>
              p.rollout == {} && p.timedOut == {} && Outside(p.rollout, p.timedOut, p.statuses, Succeeded) == selected
  {
    var done := Outside(p.rollout, p.timedOut, p.statuses, Succeeded);
    if r.complete {
      FullSubset(done, selected);
    } else if done == selected {
      OthersEmpty(p, FailedProgress);
      OthersEmpty(p, TimeOut);
    }
  }

  lemma UnheldClusterIsDone(rs: ReplicaSet, s: Snapshot, refs: seq<Ref>, p: Plan, c: string)
    requires Indexes(rs, s) && SdkOk(rs, s, refs) && IsPlan(rs, s, refs, p) && c in Selected(refs)
    requires p.rollout == {} && p.timedOut == {}
    ensures c in Outside(p.rollout, p.timedOut, p.statuses, Succeeded) <==> RolledOutAt(rs, s, c)
  {
    VerdictIsExisting(rs, s, refs, c);
    SucceededMeansReady(rs, s, c);
  }

  lemma OthersEmpty(p: Plan, outcome: Progress)
    requires Outside(p.rollout, p.timedOut, p.statuses, Succeeded) == p.statuses.Keys && outcome != Succeeded
    ensures |Outside(p.rollout, p.timedOut, p.statuses, outcome)| == 0
  {
    forall c | c in p.statuses ensures p.statuses[c] != outcome {
      assert c in Outside(p.rollout, p.timedOut, p.statuses, Succeeded);
    }
  }

  // ---------------------------------------------------------- cluster by cluster

  /** `refused` holds the clusters for which the API server refuses the pass's write. */
  function AnswerTo(refused: set<string>, c: string): Answer {
    if c in refused then Refused else Accepted
  }

  /** The summary one selected cluster ends the pass with. */
  function Final(rs: ReplicaSet, s: Snapshot, p: Plan, refused: set<string>, c: string): Summary
    requires c in p.summaries
  {
    if c in p.rollout then Apply(rs, s, c, p.summaries[c], AnswerTo(refused, c)).summary else p.summaries[c]
  }

  function Finals(rs: ReplicaSet, s: Snapshot, p: Plan, refused: set<string>): map<string, Summary> {
    map c <- p.summaries.Keys :: Final(rs, s, p, refused, c)
  }

  /** The summaries in listing order. */
  function InOrder(order: seq<string>, fin: map<string, Summary>): (r: seq<Summary>)
    requires forall c :: c in order ==> c in fin
    ensures |r| == |order| && forall i :: 0 <= i < |order| ==> r[i] == fin[order[i]]
  {
    if order == [] then []
    else assert order[|order| - 1] in order; InOrder(order[..|order| - 1], fin) + [fin[order[|order| - 1]]]
  }

  datatype Kind = Ready | Waiting | Parked | Applied | Stale | Conflicting | Failure | Failing

  predicate Is(kind: Kind, x: Summary) {
    match kind
    case Ready => x.phase == ReadyPhase
    case Waiting => x.phase == Pending
    case Parked => x.phase == Pending && x.reason == RolloutPending
    case Applied => x.phase == ReadyPhase || (x.phase == Pending && x.reason != RolloutPending)
    case Stale => x.phase == Pending && x.reason == ImmutableChildDrift
    case Conflicting => x.phase == Conflict
    case Failure => x.phase == Failed || x.phase == TimedOut
    case Failing => x.phase == Failed || x.phase == TimedOut || x.phase == Conflict
  }

  function Count(ss: seq<Summary>, kind: Kind): nat {
    if ss == [] then 0
    else Count(ss[..|ss| - 1], kind) + if Is(kind, ss[|ss| - 1]) then 1 else 0
  }

  /** The failing summaries, in order. */
  function Failures(ss: seq<Summary>): seq<Summary> {
    if ss == [] then []
    else Failures(ss[..|ss| - 1]) + if Is(Failing, ss[|ss| - 1]) then [ss[|ss| - 1]] else []
  }

  function Prefix(ss: seq<Summary>, n: nat): seq<Summary> {
    if |ss| < n then ss else ss[..n]
  }

  datatype Aggregate = Aggregate(applied: bool, rolesReady: bool, ready: bool)

  /** The ReplicaSet's status, rebuilt in place by every pass. */
  class Status {
    var applied: int
    var ready: int
    var conflict: int
    var failure: int
    var stale: int
    var desired: int
    var clusters: seq<Summary>
    var failedClusters: seq<Summary>
    var rolledOut: bool
    var aggregate: Aggregate

    /** The counts and listings of the summaries seen so far. */
    ghost predicate Reports(ss: seq<Summary>)
      reads this`applied, this`ready, this`conflict, this`failure, this`stale, this`clusters, this`failedClusters
    {
      Listed(ss) && Totals(ss, 0)
    }

    ghost predicate Listed(ss: seq<Summary>)
      reads this`applied, this`clusters, this`failedClusters
    {
      && applied == Count(ss, Applied)
      && clusters == Prefix(ss, MAX_REPORTED_CLUSTERS)
      && failedClusters == Prefix(Failures(ss), MAX_REPORTED_FAILED_CLUSTERS)
    }

    /** The counts the aggregate conditions look at, once `pruned` children are added to the stale ones. */
    ghost predicate Totals(ss: seq<Summary>, pruned: nat)
      reads this`ready, this`conflict, this`failure, this`stale
    {
      && ready == Count(ss, Ready) && failure == Count(ss, Failure)
      && conflict == Count(ss, Conflicting) && stale == Count(ss, Stale) + pruned
    }

    /** resetReplicaSetDerivedStatus. */
    method Reset()
      modifies this
      ensures Reports([])
      ensures rolledOut == old(rolledOut) && aggregate == old(aggregate)
    {
      applied, ready, conflict, failure, stale, desired := 0, 0, 0, 0, 0, 0;
      clusters, failedClusters := [], [];
    }

    /** updateReplicaSetCounts. */
    method UpdateCounts(x: Summary)
      modifies this`applied, this`ready, this`conflict, this`failure, this`stale
      ensures applied == old(applied) + if Is(Applied, x) then 1 else 0
      ensures ready == old(ready) + if Is(Ready, x) then 1 else 0
      ensures conflict == old(conflict) + if Is(Conflicting, x) then 1 else 0
      ensures failure == old(failure) + if Is(Failure, x) then 1 else 0
      ensures stale == old(stale) + if Is(Stale, x) then 1 else 0
    {
      match x.phase {
        case ReadyPhase =>
          applied := applied + 1;
          ready := ready + 1;
        case Pending =>
          if x.reason != RolloutPending { applied := applied + 1; }
          if x.reason == ImmutableChildDrift { stale := stale + 1; }
        case Conflict => conflict := conflict + 1;
        case Failed => failure := failure + 1;
        case TimedOut => failure := failure + 1;
      }
    }

    /** appendReplicaSetSummary. */
    method AppendSummary(ghost ss: seq<Summary>, x: Summary)
      requires clusters == Prefix(ss, MAX_REPORTED_CLUSTERS)
      requires failedClusters == Prefix(Failures(ss), MAX_REPORTED_FAILED_CLUSTERS)
      modifies this`clusters, this`failedClusters
      ensures clusters == Prefix(ss + [x], MAX_REPORTED_CLUSTERS)
      ensures failedClusters == Prefix(Failures(ss + [x]), MAX_REPORTED_FAILED_CLUSTERS)
    {
      assert (ss + [x])[..|ss|] == ss;
      if |clusters| < MAX_REPORTED_CLUSTERS {
        clusters := clusters + [x];
      }
      if x.phase != Failed && x.phase != Conflict && x.phase != TimedOut {
        return;
      }
      if |failedClusters| >= MAX_REPORTED_FAILED_CLUSTERS {
        return;
      }
      failedClusters := failedClusters + [x];
    }

    method ApplyCluster(rs: ReplicaSet, s: Snapshot, p: Plan, c: string, refused: set<string>, ghost seen: seq<Summary>)
      returns (write: Write, failed: bool)
      requires c in p.summaries && Reports(seen)
      modifies this`applied, this`ready, this`conflict, this`failure, this`stale, this`clusters, this`failedClusters
      ensures Reports(seen + [Final(rs, s, p, refused, c)])
      ensures write == WriteFor(rs, s, p, refused, c) && failed == ApplyFails(rs, s, p, refused, c)
    {
      var summary := p.summaries[c];
      write, failed := NoWrite, false;
      if c in p.rollout {
        var verdict := Apply(rs, s, c, summary, AnswerTo(refused, c));
        summary, write, failed := verdict.summary, verdict.write, verdict.failed;
      }
      assert (seen + [summary])[..|seen|] == seen;
      UpdateCounts(summary);
      AppendSummary(seen, summary);
    }

    /** What the first i clusters of the listing have left behind. */
    ghost predicate AppliedUpTo(rs: ReplicaSet, s: Snapshot, p: Plan, order: seq<string>, refused: set<string>,
                                i: nat, writes: seq<Write>, failed: bool)
      reads this`applied, this`ready, this`conflict, this`failure, this`stale, this`clusters, this`failedClusters
      requires i <= |order| && forall c :: c in order ==> c in p.summaries
    {
      && Reports(InOrder(order, Finals(rs, s, p, refused))[..i])
      && writes == ApplyWrites(rs, s, p, refused, order)[..i]
      && failed == ApplyFailsBefore(rs, s, p, refused, order, i)
    }

    method ApplyNext(rs: ReplicaSet, s: Snapshot, p: Plan, order: seq<string>, refused: set<string>,
                     i: nat, writes: seq<Write>, failed: bool)
      returns (writes': seq<Write>, failed': bool)
      requires i < |order| && forall c :: c in order ==> c in p.summaries
      requires AppliedUpTo(rs, s, p, order, refused, i, writes, failed)
      modifies this`applied, this`ready, this`conflict, this`failure, this`stale, this`clusters, this`failedClusters
      ensures AppliedUpTo(rs, s, p, order, refused, i + 1, writes', failed')
    {
      ghost var all, out := InOrder(order, Finals(rs, s, p, refused)), ApplyWrites(rs, s, p, refused, order);
      assert order[i] in order && all[..i + 1] == all[..i] + [all[i]] && out[..i + 1] == out[..i] + [out[i]];
      var write, failure := ApplyCluster(rs, s, p, order[i], refused, all[..i]);
      writes', failed' := writes + [write], failed || failure;
    }

    /** applyReplicaSetRolloutClusters. */
    method ApplyRolloutClusters(rs: ReplicaSet, s: Snapshot, p: Plan, order: seq<string>, refused: set<string>)
      returns (writes: seq<Write>, failed: bool)
      requires Reports([])
      requires forall c :: c in order ==> c in p.summaries
      modifies this`applied, this`ready, this`conflict, this`failure, this`stale, this`clusters, this`failedClusters
      ensures Reports(InOrder(order, Finals(rs, s, p, refused)))
      ensures writes == ApplyWrites(rs, s, p, refused, order)
      ensures failed == SomeApplyRefused(rs, s, p, order, refused)
    {
      writes, failed := [], false;
      for i := 0 to |order|
        invariant AppliedUpTo(rs, s, p, order, refused, i, writes, failed)
      {
        writes, failed := ApplyNext(rs, s, p, order, refused, i, writes, failed);
      }
      ghost var all, out := InOrder(order, Finals(rs, s, p, refused)), ApplyWrites(rs, s, p, refused, order);
      assert all[..|order|] == all && out[..|order|] == out;
      ApplyFailsBeforeIff(rs, s, p, refused, order, |order|);
      RefusedMeansFailed(rs, s, p, order, refused);
    }

    /** The three aggregate conditions, as conditions on the counts. */
    ghost predicate Aggregated()
      reads this`aggregate, this`applied, this`ready, this`desired, this`failure, this`conflict, this`stale
    {
      && (aggregate.ready <==> ready == desired && failure == 0 && conflict == 0 && stale == 0)
      && (aggregate.rolesReady <==> aggregate.ready)
      && (aggregate.applied <==> aggregate.ready || (failure <= 0 && conflict <= 0 && applied == desired))
    }

    /** setReplicaSetAggregateConditions. */
    method SetAggregateConditions()
      modifies this`aggregate
      ensures Aggregated()
    {
      var allReady := ready == desired && failure == 0 && conflict == 0 && stale == 0;
      if failure > 0 {
        aggregate := Aggregate(false, false, false);
      } else if conflict > 0 {
        aggregate := Aggregate(false, false, false);
      } else if allReady {
        aggregate := Aggregate(true, true, true);
      } else {
        aggregate := Aggregate(applied == desired, false, false);
      }
    }

    /** Plans the rollout and records its summary. */
    method PlanStatus(rs: ReplicaSet, s: Snapshot, refs: seq<Ref>, order: seq<string>) returns (p: Plan)
      requires Indexes(rs, s) && SdkOk(rs, s, refs)
      requires Lists(order, Selected(refs)) && |Selected(refs)| <= MAX_INT32
      modifies this`desired, this`rolledOut
      ensures IsPlan(rs, s, refs, p)
      ensures desired == |p.rollout| + |Outside(p.rollout, p.timedOut, p.statuses, Succeeded)|
      ensures rolledOut == AllRolledOut(rs, s, refs)
    {
      p := PlanRollout(rs, s, refs);
      NamedAreSelected(refs);
      SubsetSize(p.rollout, Selected(refs));
      SubsetSize(p.timedOut, Selected(refs));
      ListingLength(order, Selected(refs));
      var summary := NewRolloutSummary(CountInt32(|order|), p);
      UpdatingAndSucceededFit(p, Selected(refs));
      desired, rolledOut := CountInt32(summary.updating + summary.succeeded), summary.complete;
      RolledOutIff(rs, s, refs, p, summary);
    }

    /** Applies the admitted clusters and prunes the children outside the selection. */
    method ApplyAndPrune(rs: ReplicaSet, s: Snapshot, p: Plan, children: seq<Key>, order: seq<string>,
                         selected: set<string>,
                         refused: set<string>, undeletable: set<Key>)
      returns (writes: seq<Write>, applyFailed: bool, pruneFailed: bool, ghost pruned: nat)
      requires Reports([]) && OwnedChildren(rs, s, children) && |children| <= MAX_INT32
      requires forall c :: c in order ==> c in p.summaries
      modifies this`applied, this`ready, this`conflict, this`failure, this`stale, this`clusters, this`failedClusters
      ensures Issues(rs, s, p, children, selected, order, refused, undeletable, writes, applyFailed, pruneFailed)
      ensures Listed(InOrder(order, Finals(rs, s, p, refused)))
      ensures Totals(InOrder(order, Finals(rs, s, p, refused)), pruned)
      ensures pruned == |Pruned(s, children, selected, undeletable)|
      ensures !pruneFailed ==> (pruned == 0) == AllSelected(children, selected)
    {
      var gone, written, removed;
      written, applyFailed := ApplyRolloutClusters(rs, s, p, order, refused);
      gone, pruneFailed, removed := PruneChildren(rs, s, children, selected, undeletable);
      PrunedFits(s, children, selected, undeletable);
      stale, pruned := stale + CountInt32(gone), gone;
      if !pruneFailed {
        PrunedIsZero(s, children, selected, undeletable);
      }
      writes := written + removed;
    }

    /** Sets the aggregate conditions over the summaries `fin` and the `pruned` children. */
    method SettleConditions(ghost p: Plan, ghost fin: map<string, Summary>, ghost order: seq<string>,
                            ghost children: seq<Key>, ghost pruned: nat)
      requires Ends(p, fin) && Lists(order, fin.Keys) && Totals(InOrder(order, fin), pruned)
      requires desired == |p.rollout| + |Outside(p.rollout, p.timedOut, p.statuses, Succeeded)|
      modifies this`aggregate
      ensures Aggregated()
      ensures (pruned == 0) == AllSelected(children, fin.Keys) ==> aggregate.ready == AllAdmittedReady(p, fin, children)
    {
      SetAggregateConditions();
      if (pruned == 0) == AllSelected(children, fin.Keys) {
        ReadyIff(p, fin, order, children, pruned, aggregate.ready);
      }
    }

    /**
     The status a pass leaves: counts and listings of the clusters' final
     summaries, the pruned children among the stale ones, and the conditions;
     without a prune error Ready stands for AllAdmittedReady.
     */
    ghost predicate Outcome(rs: ReplicaSet, s: Snapshot, p: Plan, children: seq<Key>, selected: set<string>,
                            order: seq<string>, refused: set<string>, undeletable: set<Key>)
      reads this
      requires (forall c :: c in order ==> c in p.summaries) && forall k :: k in children ==> k in s.hub
    {
      && Listed(InOrder(order, Finals(rs, s, p, refused)))
      && Totals(InOrder(order, Finals(rs, s, p, refused)), |Pruned(s, children, selected, undeletable)|)
      && desired == |p.rollout| + |Outside(p.rollout, p.timedOut, p.statuses, Succeeded)| && Aggregated()
      && (!SomePruneRefused(s, children, selected, undeletable) ==>
            aggregate.ready == AllAdmittedReady(p, Finals(rs, s, p, refused), children))
    }

    /** Applies, prunes and sets the aggregate conditions. */
    method ReportStatus(rs: ReplicaSet, s: Snapshot, p: Plan, children: seq<Key>, selected: set<string>,
                        order: seq<string>, refused: set<string>, undeletable: set<Key>, ghost late: bool)
      returns (writes: seq<Write>, applyFailed: bool, pruneFailed: bool)
      requires OwnedChildren(rs, s, children) && |children| <= MAX_INT32
      requires forall c :: c in order ==> c in p.summaries
      requires Ends(p, Finals(rs, s, p, refused)) && Lists(order, Finals(rs, s, p, refused).Keys)
      requires Finals(rs, s, p, refused).Keys == selected
      requires Reports([]) && desired == |p.rollout| + |Outside(p.rollout, p.timedOut, p.statuses, Succeeded)|
      requires late ==> Count(InOrder(order, Finals(rs, s, p, refused)), Failure) > 0
      modifies this`applied, this`ready, this`conflict, this`failure, this`stale, this`clusters, this`failedClusters,
               this`aggregate
      ensures Outcome(rs, s, p, children, selected, order, refused, undeletable)
      ensures late ==> failure > 0 && !aggregate.ready
      ensures Issues(rs, s, p, children, selected, order, refused, undeletable, writes, applyFailed, pruneFailed)
    {
      ghost var pruned;
      writes, applyFailed, pruneFailed, pruned :=
        ApplyAndPrune(rs, s, p, children, order, selected, refused, undeletable);
      SettleConditions(p, Finals(rs, s, p, refused), order, children, pruned);
    }

    /** Clears the derived status and plans the rollout. */
    method BeginPass(rs: ReplicaSet, s: Snapshot, refs: seq<Ref>, order: seq<string>,
                     ghost refused: set<string>) returns (p: Plan)
      requires Indexes(rs, s) && SdkOk(rs, s, refs)
      requires Lists(order, Selected(refs)) && |Selected(refs)| <= MAX_INT32
      modifies this
      ensures IsPlan(rs, s, refs, p) && Reports([]) && rolledOut == AllRolledOut(rs, s, refs)
      ensures desired == |p.rollout| + |Outside(p.rollout, p.timedOut, p.statuses, Succeeded)|
      ensures Ends(p, Finals(rs, s, p, refused)) && Finals(rs, s, p, refused).Keys == Selected(refs)
      ensures forall c :: c in order ==> c in p.summaries
      ensures Lists(order, Finals(rs, s, p, refused).Keys)
      ensures AnyTimesOut(refs) ==> Count(InOrder(order, Finals(rs, s, p, refused)), Failure) > 0
    {
      Reset();
      p := PlanStatus(rs, s, refs, order);
      PlanEnds(rs, s, refs, p, order, refused);
    }

    /** One pass after the placements resolved: plan, apply, prune, aggregate. */
    method Reconcile(rs: ReplicaSet, s: Snapshot, children: seq<Key>, refs: seq<Ref>, order: seq<string>,
                     refused: set<string>, undeletable: set<Key>)
      returns (p: Plan, writes: seq<Write>, applyFailed: bool, pruneFailed: bool)
      requires Indexes(rs, s) && OwnedChildren(rs, s, children) && SdkOk(rs, s, refs)
      requires Lists(order, Selected(refs)) && |Selected(refs)| <= MAX_INT32 && |children| <= MAX_INT32
      modifies this
      ensures rolledOut == AllRolledOut(rs, s, refs)
      ensures IsPlan(rs, s, refs, p)
      ensures Outcome(rs, s, p, children, Selected(refs), order, refused, undeletable)
      ensures Issues(rs, s, p, children, Selected(refs), order, refused, undeletable, writes, applyFailed, pruneFailed)
      ensures AnyTimesOut(refs) ==> failure > 0 && !aggregate.ready
    {
      p := BeginPass(rs, s, refs, order, refused);
      writes, applyFailed, pruneFailed :=
        ReportStatus(rs, s, p, children, Selected(refs), order, refused, undeletable, AnyTimesOut(refs));
    }
  }

  /** What a pass writes, and that it fails exactly when a write it needs is refused. */
  ghost predicate Issues(rs: ReplicaSet, s: Snapshot, p: Plan, children: seq<Key>, selected: set<string>,
                         order: seq<string>, refused: set<string>, undeletable: set<Key>,
                         writes: seq<Write>, applyFailed: bool, pruneFailed: bool)
    requires (forall c :: c in order ==> c in p.summaries) && forall k :: k in children ==> k in s.hub
  {
    && writes == ApplyWrites(rs, s, p, refused, order) + PruneWrites(s, selected, undeletable, children)
    && applyFailed == SomeApplyRefused(rs, s, p, order, refused)
    && pruneFailed == SomePruneRefused(s, children, selected, undeletable)
  }

  /** c is admitted and needs a write that the API server refuses. */
  predicate NeedsRefused(rs: ReplicaSet, s: Snapshot, p: Plan, c: string, refused: set<string>)
    requires c in p.summaries
  {
    c in p.rollout && c in refused && Apply(rs, s, c, p.summaries[c], Accepted).write != NoWrite
  }

  /** Some admitted cluster needs a write that the API server refuses. */
  ghost predicate SomeApplyRefused(rs: ReplicaSet, s: Snapshot, p: Plan, order: seq<string>, refused: set<string>)
    requires forall c :: c in order ==> c in p.summaries
  {
    exists c :: c in order && NeedsRefused(rs, s, p, c, refused)
  }

  lemma RefusedMeansFailed(rs: ReplicaSet, s: Snapshot, p: Plan, order: seq<string>, refused: set<string>)
    requires forall c :: c in order ==> c in p.summaries
    ensures (exists j :: 0 <= j < |order| && ApplyFails(rs, s, p, refused, order[j])) ==
            SomeApplyRefused(rs, s, p, order, refused)
  {
    forall c | c in order
      ensures ApplyFails(rs, s, p, refused, c) <==> NeedsRefused(rs, s, p, c, refused)
    {
      RefusalIsReported(rs, s, c, p.summaries[c], AnswerTo(refused, c));
    }
    if SomeApplyRefused(rs, s, p, order, refused) {
      var c :| c in order && NeedsRefused(rs, s, p, c, refused);
      var j :| 0 <= j < |order| && order[j] == c;
      assert ApplyFails(rs, s, p, refused, order[j]);
    }
  }

  predicate ApplyFails(rs: ReplicaSet, s: Snapshot, p: Plan, refused: set<string>, c: string) {
    c in p.summaries && c in p.rollout && Apply(rs, s, c, p.summaries[c], AnswerTo(refused, c)).failed
  }

  predicate ApplyFailsBefore(rs: ReplicaSet, s: Snapshot, p: Plan, refused: set<string>, order: seq<string>, n: nat)
    requires n <= |order|
  {
    n > 0 && (ApplyFailsBefore(rs, s, p, refused, order, n - 1) || ApplyFails(rs, s, p, refused, order[n - 1]))
  }

  lemma {:induction false} ApplyFailsBeforeIff(rs: ReplicaSet, s: Snapshot, p: Plan, refused: set<string>,
                                               order: seq<string>, n: nat)
    requires n <= |order|
    ensures ApplyFailsBefore(rs, s, p, refused, order, n) <==>
              exists j :: 0 <= j < n && ApplyFails(rs, s, p, refused, order[j])
  {
    if n > 0 {
      ApplyFailsBeforeIff(rs, s, p, refused, order, n - 1);
    }
  }

  function WriteFor(rs: ReplicaSet, s: Snapshot, p: Plan, refused: set<string>, c: string): Write
    requires c in p.summaries
  {
    if c in p.rollout then Apply(rs, s, c, p.summaries[c], AnswerTo(refused, c)).write else NoWrite
  }

  function ApplyWrites(rs: ReplicaSet, s: Snapshot, p: Plan, refused: set<string>, order: seq<string>): (ws: seq<Write>)
    requires forall c :: c in order ==> c in p.summaries
    ensures |ws| == |order| && forall i :: 0 <= i < |ws| ==> ws[i] == WriteFor(rs, s, p, refused, order[i])
  {
    if order == [] then []
    else
      assert order[|order| - 1] in order;
      ApplyWrites(rs, s, p, refused, order[..|order| - 1]) + [WriteFor(rs, s, p, refused, order[|order| - 1])]
  }

  // -------------------------------------------------------------------- pruning

  function PruneWrite(s: Snapshot, selected: set<string>, undeletable: set<Key>, k: Key): Write
    requires k in s.hub
  {
    if k.namespace in selected || s.hub[k].deleting || k in undeletable then NoWrite else Remove(k)
  }

  predicate PruneFails(s: Snapshot, selected: set<string>, undeletable: set<Key>, k: Key) {
    k in s.hub && k.namespace !in selected && !s.hub[k].deleting && k in undeletable
  }

  function PruneWrites(s: Snapshot, selected: set<string>, undeletable: set<Key>, children: seq<Key>): (ws: seq<Write>)
    requires forall k :: k in children ==> k in s.hub
    ensures |ws| == |children|
    ensures forall i :: 0 <= i < |ws| ==> ws[i] == PruneWrite(s, selected, undeletable, children[i])
  {
    if children == [] then []
    else
      assert children[|children| - 1] in children;
      PruneWrites(s, selected, undeletable, children[..|children| - 1])
      + [PruneWrite(s, selected, undeletable, children[|children| - 1])]
  }

  /** The children outside the selection that are going or gone after the pass. */
  function Pruned(s: Snapshot, children: seq<Key>, selected: set<string>, undeletable: set<Key>): set<Key>
    requires forall k :: k in children ==> k in s.hub
  {
    set k <- children | k.namespace !in selected && (s.hub[k].deleting || k !in undeletable)
  }

  /** What the first i children have left behind. */
  ghost predicate PrunedUpTo(s: Snapshot, children: seq<Key>, selected: set<string>, undeletable: set<Key>,
                             i: nat, pruned: int, failed: bool, writes: seq<Write>)
    requires i <= |children| && forall k :: k in children ==> k in s.hub
  {
    && pruned == |Pruned(s, children[..i], selected, undeletable)|
    && failed == PruneFailsBefore(s, selected, undeletable, children, i)
    && writes == PruneWrites(s, selected, undeletable, children)[..i]
  }

  method PruneNext(s: Snapshot, children: seq<Key>, selected: set<string>, undeletable: set<Key>,
                   i: nat, pruned: int, failed: bool, writes: seq<Write>)
    returns (pruned': int, failed': bool, writes': seq<Write>)
    requires i < |children| && (forall k :: k in children ==> k in s.hub) && children[i] !in children[..i]
    requires PrunedUpTo(s, children, selected, undeletable, i, pruned, failed, writes)
    ensures PrunedUpTo(s, children, selected, undeletable, i + 1, pruned', failed', writes')
  {
    var k := children[i];
    ghost var out := PruneWrites(s, selected, undeletable, children);
    assert k in children && children[..i + 1] == children[..i] + [k] && out[..i + 1] == out[..i] + [out[i]];
    PrunedGrows(s, children[..i], k, selected, undeletable);
    pruned', failed', writes' := pruned, failed, writes + [PruneWrite(s, selected, undeletable, k)];
    if k.namespace !in selected {
      if s.hub[k].deleting {
        pruned' := pruned + 1;
      } else if k in undeletable {
        failed' := true;
      } else {
        pruned' := pruned + 1;
      }
    }
  }

  /** pruneReplicaSetChildren. */
  method PruneChildren(rs: ReplicaSet, s: Snapshot, children: seq<Key>, selected: set<string>, undeletable: set<Key>)
    returns (pruned: int, failed: bool, writes: seq<Write>)
    requires OwnedChildren(rs, s, children)
    ensures pruned == |Pruned(s, children, selected, undeletable)|
    ensures failed == SomePruneRefused(s, children, selected, undeletable)
    ensures writes == PruneWrites(s, selected, undeletable, children)
  {
    pruned, failed, writes := 0, false, [];
    for i := 0 to |children|
      invariant PrunedUpTo(s, children, selected, undeletable, i, pruned, failed, writes)
    {
      pruned, failed, writes := PruneNext(s, children, selected, undeletable, i, pruned, failed, writes);
    }
    ghost var out := PruneWrites(s, selected, undeletable, children);
    assert children[..|children|] == children && out[..|children|] == out;
    PruneFailsBeforeIff(s, selected, undeletable, children, |children|);
    if SomePruneRefused(s, children, selected, undeletable) {
      ghost var k :| k in children && k.namespace !in selected && !s.hub[k].deleting && k in undeletable;
      ghost var j :| 0 <= j < |children| && children[j] == k;
      assert PruneFails(s, selected, undeletable, children[j]);
    }
  }

  /** Some child outside the selection still has to be deleted, and the API server refuses. */
  ghost predicate SomePruneRefused(s: Snapshot, children: seq<Key>, selected: set<string>, undeletable: set<Key>)
    requires forall k :: k in children ==> k in s.hub
  {
    exists k :: k in children && k.namespace !in selected && !s.hub[k].deleting && k in undeletable
  }

  predicate PruneFailsBefore(s: Snapshot, selected: set<string>, undeletable: set<Key>, children: seq<Key>, n: nat)
    requires n <= |children|
  {
    n > 0 &&
    (PruneFailsBefore(s, selected, undeletable, children, n - 1)
     || PruneFails(s, selected, undeletable, children[n - 1]))
  }

  lemma {:induction false} PruneFailsBeforeIff(s: Snapshot, selected: set<string>, undeletable: set<Key>,
                                               children: seq<Key>, n: nat)
    requires n <= |children|
    ensures PruneFailsBefore(s, selected, undeletable, children, n) <==>
            exists j :: 0 <= j < n && PruneFails(s, selected, undeletable, children[j])
  {
    if n > 0 {
      PruneFailsBeforeIff(s, selected, undeletable, children, n - 1);
    }
  }

  /** When no delete failed, a zero count means nothing lay outside the selection. */
  lemma PrunedIsZero(s: Snapshot, children: seq<Key>, selected: set<string>, undeletable: set<Key>)
    requires forall k :: k in children ==> k in s.hub
    requires !SomePruneRefused(s, children, selected, undeletable)
    ensures (|Pruned(s, children, selected, undeletable)| == 0) == AllSelected(children, selected)
  {
    if k :| k in children && k.namespace !in selected {
      assert k in Pruned(s, children, selected, undeletable);
    }
  }

  lemma PrunedGrows(s: Snapshot, front: seq<Key>, k: Key, selected: set<string>, undeletable: set<Key>)
    requires (forall x :: x in front ==> x in s.hub) && k in s.hub && k !in front
    ensures |Pruned(s, front + [k], selected, undeletable)| == |Pruned(s, front, selected, undeletable)|
              + if k.namespace !in selected && (s.hub[k].deleting || k !in undeletable) then 1 else 0
  {
    var one := if k.namespace !in selected && (s.hub[k].deleting || k !in undeletable) then {k} else {};
    assert Pruned(s, front + [k], selected, undeletable) == Pruned(s, front, selected, undeletable) + one;
  }

  lemma {:induction false} PrunedFits(s: Snapshot, children: seq<Key>, selected: set<string>, undeletable: set<Key>)
    requires forall k :: k in children ==> k in s.hub
    ensures |Pruned(s, children, selected, undeletable)| <= |children|
  {
    if children != [] {
      var front, k := children[..|children| - 1], children[|children| - 1];
      assert children == front + [k];
      PrunedFits(s, front, selected, undeletable);
      if k in front {
        assert Pruned(s, children, selected, undeletable) == Pruned(s, front, selected, undeletable);
      } else {
        PrunedGrows(s, front, k, selected, undeletable);
      }
    }
  }

  // ---------------------------------------------------------------- conservation

  function Holding(selected: set<string>, fin: map<string, Summary>, kind: Kind): set<string>
    requires selected <= fin.Keys
  {
    set c <- selected | Is(kind, fin[c])
  }

  lemma {:induction false} CountIsCard(order: seq<string>, selected: set<string>, fin: map<string, Summary>,
                                       kind: Kind, hits: set<string>)
    requires Lists(order, selected) && hits <= selected <= fin.Keys
    requires forall c :: c in selected ==> (c in hits) == Is(kind, fin[c])
    ensures Count(InOrder(order, fin), kind) == |hits|
  {
    if order == [] {
      assert selected == {};
    } else {
      var front, x := order[..|order| - 1], order[|order| - 1];
      ListsFront(order, selected);
      CountIsCard(front, selected - {x}, fin, kind, hits - {x});
      var ss := InOrder(order, fin);
      assert ss[..|ss| - 1] == InOrder(front, fin);
    }
  }

  lemma {:induction false} CountsPartition(ss: seq<Summary>)
    ensures Count(ss, Ready) + Count(ss, Conflicting) + Count(ss, Failure) + Count(ss, Waiting) == |ss|
    ensures Count(ss, Applied) + Count(ss, Parked) == Count(ss, Ready) + Count(ss, Waiting)
    ensures |Failures(ss)| == Count(ss, Conflicting) + Count(ss, Failure)
  {
    if ss != [] {
      CountsPartition(ss[..|ss| - 1]);
    }
  }

  /** Failing keeps exactly the failing summaries, in the listing's order. */
  lemma {:induction false} FailingInOrder(order: seq<string>, ss: seq<Summary>)
    requires |ss| == |order| && forall i :: 0 <= i < |ss| ==> ss[i].cluster == order[i]
    requires forall i, j :: 0 <= i < j < |order| ==> Leq(order[i], order[j]) && order[i] != order[j]
    ensures forall x :: x in Failures(ss) <==> x in ss && Is(Failing, x)
    ensures forall i, j :: 0 <= i < j < |Failures(ss)| ==>
              && Leq(Failures(ss)[i].cluster, Failures(ss)[j].cluster)
              && Failures(ss)[i].cluster != Failures(ss)[j].cluster
  {
    if ss != [] {
      var front, x, before := ss[..|ss| - 1], ss[|ss| - 1], order[..|order| - 1];
      FailingInOrder(before, front);
      assert ss == front + [x];
      forall y | y in Failures(front) ensures Leq(y.cluster, x.cluster) && y.cluster != x.cluster {
        var i :| 0 <= i < |front| && front[i] == y;
        assert ss[i] == y;
      }
    }
  }

  lemma FinalNamesCluster(rs: ReplicaSet, s: Snapshot, refs: seq<Ref>, p: Plan, refused: set<string>, c: string)
    requires SdkOk(rs, s, refs) && IsPlan(rs, s, refs, p) && c in Selected(refs)
    ensures Final(rs, s, p, refused, c).cluster == c
  {
    VerdictIsExisting(rs, s, refs, c);
  }

  /**
   Every selected cluster is reported exactly once: the phase counts add up to
   the selection, Applied is Ready plus the pending clusters not parked by the
   rollout, and the two listings are prefixes in cluster order.
   */
  lemma StatusConserves(rs: ReplicaSet, s: Snapshot, refs: seq<Ref>, p: Plan, order: seq<string>, refused: set<string>)
    requires SdkOk(rs, s, refs) && IsPlan(rs, s, refs, p) && Lists(order, Selected(refs))
    ensures var ss := InOrder(order, Finals(rs, s, p, refused));
            && Count(ss, Ready) + Count(ss, Conflicting) + Count(ss, Failure) + Count(ss, Waiting) == |Selected(refs)|
            && Count(ss, Applied) == Count(ss, Ready) + Count(ss, Waiting) - Count(ss, Parked)
            && |Failures(ss)| == Count(ss, Conflicting) + Count(ss, Failure)
            && (forall i :: 0 <= i < |ss| ==> ss[i].cluster == order[i])
            && (forall x :: x in Failures(ss) <==> x in ss && Is(Failing, x))
            && (forall i, j :: 0 <= i < j < |Failures(ss)| ==>
                  && Leq(Failures(ss)[i].cluster, Failures(ss)[j].cluster)
                  && Failures(ss)[i].cluster != Failures(ss)[j].cluster)
  {
    var ss := InOrder(order, Finals(rs, s, p, refused));
    forall i | 0 <= i < |ss| ensures ss[i].cluster == order[i] {
      assert order[i] in order;
      FinalNamesCluster(rs, s, refs, p, refused, order[i]);
    }
    ListingLength(order, Selected(refs));
    CountsPartition(ss);
    FailingInOrder(order, ss);
  }

  // ----------------------------------------------------------------- Ready=True

  ghost predicate AllSelected(children: seq<Key>, selected: set<string>) {
    forall k :: k in children ==> k.namespace in selected
  }

  ghost predicate NoCluster(fin: map<string, Summary>, kind: Kind) {
    forall c :: c in fin ==> !Is(kind, fin[c])
  }

  ghost predicate AdmittedReady(p: Plan, fin: map<string, Summary>) {
    forall c :: c in p.rollout && c in fin ==> Is(Ready, fin[c])
  }

  /** What Ready=True stands for, given the summaries the clusters end the pass with. */
  ghost predicate AllAdmittedReady(p: Plan, fin: map<string, Summary>, children: seq<Key>) {
    && (forall c :: c in fin ==> fin[c].phase != Failed && fin[c].phase != TimedOut && fin[c].phase != Conflict)
    && (forall c :: c in p.rollout && c in fin ==> fin[c].phase == ReadyPhase)
    && (forall k :: k in children ==> k.namespace in fin)
  }

  lemma AllAdmittedReadyIs(p: Plan, fin: map<string, Summary>, children: seq<Key>)
    ensures AllAdmittedReady(p, fin, children) ==
            (NoCluster(fin, Failing) && AdmittedReady(p, fin) && AllSelected(children, fin.Keys))
  {
    forall c | c in fin
      ensures Is(Failing, fin[c]) <==> fin[c].phase == Failed || fin[c].phase == TimedOut || fin[c].phase == Conflict
      ensures Is(Ready, fin[c]) <==> fin[c].phase == ReadyPhase
    {
    }
  }

  /**
   Outside the rollout the ready clusters are those the rollout summary calls
   succeeded, and only an admitted cluster can hold a stale child.
   */
  ghost predicate Ends(p: Plan, fin: map<string, Summary>) {
    && p.rollout <= p.statuses.Keys == fin.Keys
    && (forall c :: c in fin && c !in p.rollout ==>
          (Is(Ready, fin[c]) <==> c in Outside(p.rollout, p.timedOut, p.statuses, Succeeded)))
    && (forall c :: c in fin && Is(Stale, fin[c]) ==> c in p.rollout)
  }

  lemma FinalsEnd(rs: ReplicaSet, s: Snapshot, refs: seq<Ref>, p: Plan, refused: set<string>)
    requires Indexes(rs, s) && SdkOk(rs, s, refs) && IsPlan(rs, s, refs, p)
    ensures Ends(p, Finals(rs, s, p, refused)) && Finals(rs, s, p, refused).Keys == Selected(refs)
  {
    NamedAreSelected(refs);
    forall c | c in Selected(refs)
      ensures c !in p.rollout ==>
                (Is(Ready, Final(rs, s, p, refused, c)) <==> c in Outside(p.rollout, p.timedOut, p.statuses, Succeeded))
      ensures Is(Stale, Final(rs, s, p, refused, c)) ==> c in p.rollout
    {
      FinalEnds(rs, s, refs, p, refused, c);
    }
  }

  lemma FinalEnds(rs: ReplicaSet, s: Snapshot, refs: seq<Ref>, p: Plan, refused: set<string>, c: string)
    requires Indexes(rs, s) && SdkOk(rs, s, refs) && IsPlan(rs, s, refs, p) && c in Selected(refs)
    ensures c !in p.rollout ==>
              (Is(Ready, Final(rs, s, p, refused, c)) <==> c in Outside(p.rollout, p.timedOut, p.statuses, Succeeded))
    ensures Is(Stale, Final(rs, s, p, refused, c)) ==> c in p.rollout
  {
    VerdictIsExisting(rs, s, refs, c);
    SucceededMeansReady(rs, s, c);
  }

  lemma UpdatingAndSucceededFit(p: Plan, selected: set<string>)
    requires p.rollout <= selected && p.statuses.Keys == selected
    ensures |p.rollout| + |Outside(p.rollout, p.timedOut, p.statuses, Succeeded)| <= |selected|
  {
    var done := Outside(p.rollout, p.timedOut, p.statuses, Succeeded);
    assert |p.rollout + done| == |p.rollout| + |done|;
    SubsetSize(p.rollout + done, selected);
  }

  /** Ready clusters number Updating + Succeeded exactly when every admitted cluster is Ready. */
  lemma ReadyEqualsDesired(p: Plan, fin: map<string, Summary>)
    requires Ends(p, fin)
    ensures AdmittedReady(p, fin) <==>
              |Holding(fin.Keys, fin, Ready)| == |p.rollout| + |Outside(p.rollout, p.timedOut, p.statuses, Succeeded)|
  {
    var ready := Holding(fin.Keys, fin, Ready);
    var done := Outside(p.rollout, p.timedOut, p.statuses, Succeeded);
    assert |p.rollout + done| == |p.rollout| + |done|;
    assert ready <= p.rollout + done;
    if |ready| == |p.rollout + done| {
      FullSubset(ready, p.rollout + done);
    }
    if AdmittedReady(p, fin) {
      assert ready == p.rollout + done;
    }
  }

  lemma CountIsZero(order: seq<string>, fin: map<string, Summary>, kind: Kind)
    requires Lists(order, fin.Keys)
    ensures (Count(InOrder(order, fin), kind) == 0) == NoCluster(fin, kind)
  {
    var some := Holding(fin.Keys, fin, kind);
    CountIsCard(order, fin.Keys, fin, kind, some);
    if c :| c in fin && Is(kind, fin[c]) {
      assert c in some;
    }
  }

  lemma FailingKinds(p: Plan, fin: map<string, Summary>)
    requires Ends(p, fin)
    ensures NoCluster(fin, Failing) == (NoCluster(fin, Failure) && NoCluster(fin, Conflicting))
    ensures AdmittedReady(p, fin) ==> NoCluster(fin, Stale)
  {
    forall c | c in fin ensures Is(Failing, fin[c]) == (Is(Failure, fin[c]) || Is(Conflicting, fin[c])) {
    }
  }

  /**
   With no prune error, Ready=True exactly when no selected cluster ended the
   pass in Failed, TimedOut or Conflict, every cluster admitted to the rollout
   is Ready, and no owned child lies outside the selection.
   */
  lemma ReadyIff(p: Plan, fin: map<string, Summary>, order: seq<string>, children: seq<Key>, pruned: nat, ready: bool)
    requires Ends(p, fin) && Lists(order, fin.Keys) && (pruned == 0) == AllSelected(children, fin.Keys)
    requires var ss := InOrder(order, fin);
             ready <==>
               && Count(ss, Ready) == |p.rollout| + |Outside(p.rollout, p.timedOut, p.statuses, Succeeded)|
               && Count(ss, Failure) == 0 && Count(ss, Conflicting) == 0 && Count(ss, Stale) + pruned == 0
    ensures ready == AllAdmittedReady(p, fin, children)
  {
    CountIsCard(order, fin.Keys, fin, Ready, Holding(fin.Keys, fin, Ready));
    ReadyEqualsDesired(p, fin);
    CountIsZero(order, fin, Failure);
    CountIsZero(order, fin, Conflicting);
    CountIsZero(order, fin, Stale);
    FailingKinds(p, fin);
    AllAdmittedReadyIs(p, fin, children);
  }

  // ------------------------------------------------------------ what the counts are

  /** The clusters that end the pass in `phase`. */
  function Phased(fin: map<string, Summary>, phase: Phase): set<string> {
    set c <- fin.Keys | fin[c].phase == phase
  }

  /** The clusters that end the pass pending for `reason`. */
  function PendingFor(fin: map<string, Summary>, reason: Reason): set<string> {
    set c <- fin.Keys | fin[c].phase == Pending && fin[c].reason == reason
  }

  lemma ReadyCountIs(order: seq<string>, fin: map<string, Summary>)
    requires Lists(order, fin.Keys)
    ensures Count(InOrder(order, fin), Ready) == |Phased(fin, ReadyPhase)|
  {
    var hits := Phased(fin, ReadyPhase);
    forall c | c in fin ensures (c in hits) == Is(Ready, fin[c]) {
    }
    CountIsCard(order, fin.Keys, fin, Ready, hits);
  }

  lemma ConflictingCountIs(order: seq<string>, fin: map<string, Summary>)
    requires Lists(order, fin.Keys)
    ensures Count(InOrder(order, fin), Conflicting) == |Phased(fin, Conflict)|
  {
    var hits := Phased(fin, Conflict);
    forall c | c in fin ensures (c in hits) == Is(Conflicting, fin[c]) {
    }
    CountIsCard(order, fin.Keys, fin, Conflicting, hits);
  }

  lemma FailureCountIs(order: seq<string>, fin: map<string, Summary>)
    requires Lists(order, fin.Keys)
    ensures Count(InOrder(order, fin), Failure) == |Phased(fin, Failed) + Phased(fin, TimedOut)|
  {
    var hits := Phased(fin, Failed) + Phased(fin, TimedOut);
    forall c | c in fin ensures (c in hits) == Is(Failure, fin[c]) {
    }
    CountIsCard(order, fin.Keys, fin, Failure, hits);
  }

  lemma WaitingCountIs(order: seq<string>, fin: map<string, Summary>)
    requires Lists(order, fin.Keys)
    ensures Count(InOrder(order, fin), Waiting) == |Phased(fin, Pending)|
  {
    var hits := Phased(fin, Pending);
    forall c | c in fin ensures (c in hits) == Is(Waiting, fin[c]) {
    }
    CountIsCard(order, fin.Keys, fin, Waiting, hits);
  }

  lemma StaleCountIs(order: seq<string>, fin: map<string, Summary>)
    requires Lists(order, fin.Keys)
    ensures Count(InOrder(order, fin), Stale) == |PendingFor(fin, ImmutableChildDrift)|
  {
    var hits := PendingFor(fin, ImmutableChildDrift);
    forall c | c in fin ensures (c in hits) == Is(Stale, fin[c]) {
    }
    CountIsCard(order, fin.Keys, fin, Stale, hits);
  }

  lemma ParkedCountIs(order: seq<string>, fin: map<string, Summary>)
    requires Lists(order, fin.Keys)
    ensures Count(InOrder(order, fin), Parked) == |PendingFor(fin, RolloutPending)|
  {
    var hits := PendingFor(fin, RolloutPending);
    forall c | c in fin ensures (c in hits) == Is(Parked, fin[c]) {
    }
    CountIsCard(order, fin.Keys, fin, Parked, hits);
  }

  lemma AppliedCountIs(order: seq<string>, fin: map<string, Summary>)
    requires Lists(order, fin.Keys)
    ensures Count(InOrder(order, fin), Applied) ==
            |Phased(fin, ReadyPhase) + (Phased(fin, Pending) - PendingFor(fin, RolloutPending))|
  {
    var hits := Phased(fin, ReadyPhase) + (Phased(fin, Pending) - PendingFor(fin, RolloutPending));
    forall c | c in fin ensures (c in hits) == Is(Applied, fin[c]) {
    }
    CountIsCard(order, fin.Keys, fin, Applied, hits);
  }

  /** Every counter is the number of clusters that end the pass in its phase, or pending for its reason. */
  lemma CountsAre(order: seq<string>, fin: map<string, Summary>)
    requires Lists(order, fin.Keys)
    ensures var ss := InOrder(order, fin);
            && Count(ss, Ready) == |Phased(fin, ReadyPhase)|
            && Count(ss, Conflicting) == |Phased(fin, Conflict)|
            && Count(ss, Failure) == |Phased(fin, Failed) + Phased(fin, TimedOut)|
            && Count(ss, Waiting) == |Phased(fin, Pending)|
            && Count(ss, Stale) == |PendingFor(fin, ImmutableChildDrift)|
            && Count(ss, Parked) == |PendingFor(fin, RolloutPending)|
            && Count(ss, Applied) ==
                 |Phased(fin, ReadyPhase) + (Phased(fin, Pending) - PendingFor(fin, RolloutPending))|
  {
    ReadyCountIs(order, fin);
    ConflictingCountIs(order, fin);
    FailureCountIs(order, fin);
    WaitingCountIs(order, fin);
    StaleCountIs(order, fin);
    ParkedCountIs(order, fin);
    AppliedCountIs(order, fin);
  }

  /** The listings hold the first hundred clusters, and the first fifty of those that failed. */
  lemma ListingsAre(order: seq<string>, fin: map<string, Summary>)
    requires forall c :: c in order ==> c in fin
    ensures var ss := InOrder(order, fin);
            && |Prefix(ss, MAX_REPORTED_CLUSTERS)| == (if |order| < 100 then |order| else 100)
            && (forall i :: 0 <= i < |Prefix(ss, MAX_REPORTED_CLUSTERS)| ==>
                  Prefix(ss, MAX_REPORTED_CLUSTERS)[i] == fin[order[i]])
            && |Prefix(Failures(ss), MAX_REPORTED_FAILED_CLUSTERS)| ==
                 (if |Failures(ss)| < 50 then |Failures(ss)| else 50)
            && Prefix(Failures(ss), MAX_REPORTED_FAILED_CLUSTERS) <= Failures(ss)
  {
  }

  /** A cluster the SDK has timed out ends the pass in phase TimedOut, admitted or not. */
  lemma TimedOutEndsTimedOut(rs: ReplicaSet, s: Snapshot, refs: seq<Ref>, p: Plan, refused: set<string>, c: string)
    requires IsPlan(rs, s, refs, p) && TimesOut(refs, c)
    ensures c in p.summaries && Final(rs, s, p, refused, c) == Summary(c, TimedOut, RolloutTimedOut)
  {
    var i: nat, k: nat :| TimesOutAt(refs, i, k, c);
    TimedOutIsPlanned(rs, s, refs, p, i, c, k);
  }

  /** What the rest of the pass needs to know about the plan. */
  lemma PlanEnds(rs: ReplicaSet, s: Snapshot, refs: seq<Ref>, p: Plan, order: seq<string>, refused: set<string>)
    requires Indexes(rs, s) && SdkOk(rs, s, refs) && IsPlan(rs, s, refs, p) && Lists(order, Selected(refs))
    ensures Ends(p, Finals(rs, s, p, refused)) && Finals(rs, s, p, refused).Keys == Selected(refs)
    ensures forall c :: c in order ==> c in p.summaries
    ensures Lists(order, Finals(rs, s, p, refused).Keys)
    ensures AnyTimesOut(refs) ==> Count(InOrder(order, Finals(rs, s, p, refused)), Failure) > 0
  {
    FinalsEnd(rs, s, refs, p, refused);
    TimedOutIsCounted(rs, s, refs, p, order, refused);
  }

  /** So a pass with such a cluster counts a failure, and is not Ready. */
  lemma TimedOutIsCounted(rs: ReplicaSet, s: Snapshot, refs: seq<Ref>, p: Plan, order: seq<string>,
                          refused: set<string>)
    requires IsPlan(rs, s, refs, p) && Lists(order, Finals(rs, s, p, refused).Keys)
    ensures AnyTimesOut(refs) ==> Count(InOrder(order, Finals(rs, s, p, refused)), Failure) > 0
  {
    if AnyTimesOut(refs) {
      var c :| TimesOut(refs, c);
      var fin := Finals(rs, s, p, refused);
      TimedOutEndsTimedOut(rs, s, refs, p, refused, c);
      assert c in fin && Is(Failure, fin[c]);
      CountIsZero(order, fin, Failure);
    }
  }
}
