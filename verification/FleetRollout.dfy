/**
 Planning one pass of the ReplicaSet controller: the selection resolved from
 the placement refs, and the rollout plan assembled ref by ref from what is
 observed and what the OCM SDK answers.
 */
module FleetRollout {
  import opened Options
  import opened Fleet

  datatype ClusterStatus = ClusterStatus(cluster: string, progress: Progress)

  /** What the SDK's GetRolloutCluster answers for one placement ref. */
  datatype Decision = Decision(toRollout: seq<ClusterStatus>, timeOut: seq<ClusterStatus>)

  /** One placement ref: the clusters its groups hold, and the SDK's answer for them. */
  datatype Ref = Ref(clusters: set<string>, decision: Decision)

  function Selected(refs: seq<Ref>): set<string> {
    if refs == [] then {} else Selected(refs[..|refs| - 1]) + refs[|refs| - 1].clusters
  }

  /** resolveReplicaSetPlacements: a ref that cannot be resolved fails the pass and contributes nothing. */
  method ResolvePlacements(answers: seq<Option<Ref>>) returns (refs: seq<Ref>, clusters: set<string>, failed: bool)
    ensures clusters == Selected(refs)
    ensures !failed <==> forall i :: 0 <= i < |answers| ==> answers[i].Some?
    ensures |refs| == |answers|
    ensures forall i :: 0 <= i < |answers| ==>
              refs[i] == if answers[i].Some? then answers[i].value else Ref({}, Decision([], []))
  {
    refs, clusters, failed := [], {}, false;
    for i := 0 to |answers|
      invariant |refs| == i && clusters == Selected(refs)
      invariant !failed <==> forall j :: 0 <= j < i ==> answers[j].Some?
      invariant forall j :: 0 <= j < i ==>
                  refs[j] == if answers[j].Some? then answers[j].value else Ref({}, Decision([], []))
    {
      var ref := Ref({}, Decision([], []));
      match answers[i] {
        case Some(r) => ref := r;
        case None => failed := true;
      }
      clusters := clusters + ref.clusters;
      assert (refs + [ref])[..i] == refs;
      refs := refs + [ref];
    }
  }

  // ----------------------------------------------------------------- the plan

  datatype Plan = Plan(
    rollout: set<string>,
    timedOut: set<string>,
    summaries: map<string, Summary>,
    statuses: map<string, Progress>)

  /** The last report about c; a report without a cluster name is about nobody. */
  function LastReport(reports: seq<ClusterStatus>, c: string): Option<Progress> {
    if reports == [] then None
    else
      var last := reports[|reports| - 1];
      if last.cluster == c && c != "" then Some(last.progress) else LastReport(reports[..|reports| - 1], c)
  }

  function NamedIn(reports: seq<ClusterStatus>): set<string> {
    set r <- reports | r.cluster != "" :: r.cluster
  }

  /** Exactly the reported clusters have a last report, and it is one of the reports. */
  lemma {:induction false} LastReportIsReported(reports: seq<ClusterStatus>, c: string)
    ensures LastReport(reports, c).Some? <==> c in NamedIn(reports)
    ensures LastReport(reports, c).Some? ==> c != "" && ClusterStatus(c, LastReport(reports, c).value) in reports
  {
    if reports != [] {
      var front := reports[..|reports| - 1];
      LastReportIsReported(front, c);
      NamedGrows(front, reports[|reports| - 1]);
      assert reports == front + [reports[|reports| - 1]];
    }
  }

  lemma NamedGrows(front: seq<ClusterStatus>, last: ClusterStatus)
    ensures NamedIn(front + [last]) == NamedIn(front) + (if last.cluster == "" then {} else {last.cluster})
    ensures forall c :: LastReport(front + [last], c) ==
                          if last.cluster == c && c != "" then Some(last.progress) else LastReport(front, c)
  {
    assert (front + [last])[..|front|] == front;
    assert last in front + [last];
  }

  /** summaryFromRolloutStatus. */
  function FromStatus(c: string, p: Progress): Summary {
    match p
    case Succeeded => Summary(c, ReadyPhase, ChildIsReady)
    case FailedProgress => Summary(c, Failed, ChildApplyFailed)
    case TimeOut => Summary(c, TimedOut, RolloutTimedOut)
    case _ => Summary(c, Pending, RolloutPending)
  }

  function SummaryAfter(timeOut: seq<ClusterStatus>, before: Summary, c: string): Summary {
    var r := LastReport(timeOut, c);
    if r.Some? then FromStatus(c, r.value) else before
  }

  /** One ref's verdict on one of its clusters. */
  function Judged(rs: ReplicaSet, s: Snapshot, d: Decision, c: string): (Summary, Progress) {
    var (summary, status) := Existing(rs, s, c);
    (SummaryAfter(d.timeOut, summary, c), LastReport(d.timeOut, c).Or(LastReport(d.toRollout, c).Or(status)))
  }

  /** The verdict of the last ref that holds c. */
  function LastVerdict(rs: ReplicaSet, s: Snapshot, refs: seq<Ref>, c: string): (Summary, Progress)
    requires c in Selected(refs)
  {
    var last := refs[|refs| - 1];
    if c in last.clusters then Judged(rs, s, last.decision, c)
    else LastVerdict(rs, s, refs[..|refs| - 1], c)
  }

  /** The SDK only reports on clusters of the groups it was given. */
  ghost predicate FromGroups(ref: Ref) {
    NamedIn(ref.decision.toRollout) + NamedIn(ref.decision.timeOut) <= ref.clusters
  }

  /** The SDK times out no cluster that has succeeded, and does not report one as succeeded. */
  ghost predicate TimesOutUnfinished(rs: ReplicaSet, s: Snapshot, ref: Ref) {
    forall r :: r in ref.decision.timeOut && r.cluster != "" ==>
      r.progress != Succeeded && Existing(rs, s, r.cluster).1 != Succeeded
  }

  ghost predicate SdkOk(rs: ReplicaSet, s: Snapshot, refs: seq<Ref>) {
    forall i :: 0 <= i < |refs| ==> FromGroups(refs[i]) && TimesOutUnfinished(rs, s, refs[i])
  }

  function RolledOutBy(refs: seq<Ref>): set<string> {
    if refs == [] then {}
    else RolledOutBy(refs[..|refs| - 1]) + NamedIn(refs[|refs| - 1].decision.toRollout)
  }

  function TimedOutBy(refs: seq<Ref>): set<string> {
    if refs == [] then {}
    else TimedOutBy(refs[..|refs| - 1]) + NamedIn(refs[|refs| - 1].decision.timeOut)
  }

  ghost predicate IsPlan(rs: ReplicaSet, s: Snapshot, refs: seq<Ref>, p: Plan) {
    && p.rollout == RolledOutBy(refs)
    && p.timedOut == TimedOutBy(refs)
    && p.summaries.Keys == p.statuses.Keys == Selected(refs)
    && forall c :: c in Selected(refs) ==>
         (p.summaries[c], p.statuses[c]) == LastVerdict(rs, s, refs, c)
  }

  // ------------------------------------------------------- the plan, read off the refs

  /** refs[i] is the last ref that holds c. */
  ghost predicate LastHolder(refs: seq<Ref>, i: nat, c: string) {
    i < |refs| && c in refs[i].clusters && forall j :: i < j < |refs| ==> c !in refs[j].clusters
  }

  /** reports[k] is the last report about c. */
  ghost predicate LastAbout(reports: seq<ClusterStatus>, k: nat, c: string) {
    k < |reports| && reports[k].cluster == c && forall j :: k < j < |reports| ==> reports[j].cluster != c
  }

  ghost predicate Unnamed(reports: seq<ClusterStatus>, c: string) {
    forall k :: 0 <= k < |reports| ==> reports[k].cluster != c
  }

  lemma {:induction false} LastVerdictAt(rs: ReplicaSet, s: Snapshot, refs: seq<Ref>, i: nat, c: string)
    requires LastHolder(refs, i, c)
    ensures c in Selected(refs) && LastVerdict(rs, s, refs, c) == Judged(rs, s, refs[i].decision, c)
  {
    if i < |refs| - 1 {
      LastVerdictAt(rs, s, refs[..|refs| - 1], i, c);
    }
  }

  lemma {:induction false} LastReportAt(reports: seq<ClusterStatus>, c: string, k: nat)
    requires c != "" && LastAbout(reports, k, c)
    ensures LastReport(reports, c) == Some(reports[k].progress)
  {
    if k < |reports| - 1 {
      LastReportAt(reports[..|reports| - 1], c, k);
    }
  }

  lemma {:induction false} NoReport(reports: seq<ClusterStatus>, c: string)
    requires Unnamed(reports, c)
    ensures LastReport(reports, c) == None
  {
    if reports != [] {
      NoReport(reports[..|reports| - 1], c);
    }
  }

  /**
   What the plan holds for a cluster the SDK timed out: the last ref that holds
   it decides, by its last report. A time-out is planned as TimedOut, a failure
   as Failed, anything still under way as parked.
   */
  lemma TimedOutIsPlanned(rs: ReplicaSet, s: Snapshot, refs: seq<Ref>, p: Plan, i: nat, c: string, k: nat)
    requires IsPlan(rs, s, refs, p) && c != "" && LastHolder(refs, i, c) && LastAbout(refs[i].decision.timeOut, k, c)
    ensures c in p.statuses && c in p.summaries && p.statuses[c] == refs[i].decision.timeOut[k].progress
    ensures p.statuses[c] == TimeOut ==> p.summaries[c] == Summary(c, TimedOut, RolloutTimedOut)
    ensures p.statuses[c] == FailedProgress ==> p.summaries[c] == Summary(c, Failed, ChildApplyFailed)
    ensures p.statuses[c] == Succeeded ==> p.summaries[c] == Summary(c, ReadyPhase, ChildIsReady)
    ensures p.statuses[c] == ToApply || p.statuses[c] == Progressing || p.statuses[c] == Skip ==>
              p.summaries[c] == Summary(c, Pending, RolloutPending)
  {
    LastVerdictAt(rs, s, refs, i, c);
    LastReportAt(refs[i].decision.timeOut, c, k);
  }

  /**
   For any other cluster the plan holds what was observed, with the status of
   the last rollout report if there is one.
   */
  lemma OthersArePlanned(rs: ReplicaSet, s: Snapshot, refs: seq<Ref>, p: Plan, i: nat, c: string)
    requires IsPlan(rs, s, refs, p) && c != "" && LastHolder(refs, i, c) && Unnamed(refs[i].decision.timeOut, c)
    ensures c in p.statuses && c in p.summaries && p.summaries[c] == Existing(rs, s, c).0
    ensures Unnamed(refs[i].decision.toRollout, c) ==> p.statuses[c] == Existing(rs, s, c).1
    ensures forall k: nat :: LastAbout(refs[i].decision.toRollout, k, c) ==>
              p.statuses[c] == refs[i].decision.toRollout[k].progress
  {
    LastVerdictAt(rs, s, refs, i, c);
    NoReport(refs[i].decision.timeOut, c);
    if Unnamed(refs[i].decision.toRollout, c) {
      NoReport(refs[i].decision.toRollout, c);
    }
    forall k: nat | LastAbout(refs[i].decision.toRollout, k, c)
      ensures p.statuses[c] == refs[i].decision.toRollout[k].progress
    {
      LastReportAt(refs[i].decision.toRollout, c, k);
    }
  }

  ghost predicate TimesOutAt(refs: seq<Ref>, i: nat, k: nat, c: string) {
    && LastHolder(refs, i, c) && LastAbout(refs[i].decision.timeOut, k, c)
    && refs[i].decision.timeOut[k].progress == TimeOut
  }

  /** The last ref that holds c has timed it out, by its last report about c. */
  ghost predicate TimesOut(refs: seq<Ref>, c: string) {
    c != "" && exists i: nat, k: nat :: TimesOutAt(refs, i, k, c)
  }

  ghost predicate AnyTimesOut(refs: seq<Ref>) {
    exists c :: TimesOut(refs, c)
  }

  /** planReplicaSetRollout. */
  method PlanRollout(rs: ReplicaSet, s: Snapshot, refs: seq<Ref>) returns (p: Plan)
    requires forall i :: 0 <= i < |refs| ==> FromGroups(refs[i])
    ensures IsPlan(rs, s, refs, p)
  {
    p := Plan({}, {}, map[], map[]);
    for i := 0 to |refs|
      invariant IsPlan(rs, s, refs[..i], p)
    {
      assert refs[..i + 1][..i] == refs[..i];
      p := PlanRef(rs, s, refs[..i], refs[i], p);
    }
    assert refs[..|refs|] == refs;
  }

  method PlanRef(rs: ReplicaSet, s: Snapshot, ghost done: seq<Ref>, ref: Ref, before: Plan) returns (p: Plan)
    requires IsPlan(rs, s, done, before) && FromGroups(ref)
    ensures IsPlan(rs, s, done + [ref], p)
  {
    ghost var refs := done + [ref];
    assert refs[..|refs| - 1] == done;
    p := RecordExisting(rs, s, ref, before);
    p := RecordRollout(ref, p);
    p := RecordTimeOut(ref, p);
    forall c | c in Selected(refs) ensures (p.summaries[c], p.statuses[c]) == LastVerdict(rs, s, refs, c) {
      LastReportIsReported(ref.decision.toRollout, c);
      LastReportIsReported(ref.decision.timeOut, c);
    }
  }

  method RecordExisting(rs: ReplicaSet, s: Snapshot, ref: Ref, before: Plan) returns (p: Plan)
    requires before.summaries.Keys == before.statuses.Keys
    ensures p.rollout == before.rollout && p.timedOut == before.timedOut
    ensures p.summaries.Keys == p.statuses.Keys == before.summaries.Keys + ref.clusters
    ensures forall c :: c in p.summaries ==>
              (p.summaries[c], p.statuses[c]) ==
              if c in ref.clusters then Existing(rs, s, c) else (before.summaries[c], before.statuses[c])
  {
    var summaries, statuses, todo := before.summaries, before.statuses, ref.clusters;
    while todo != {}
      invariant todo <= ref.clusters
      invariant summaries.Keys == statuses.Keys == before.summaries.Keys + (ref.clusters - todo)
      invariant forall c :: c in summaries && c !in todo ==>
                  (summaries[c], statuses[c]) ==
                  if c in ref.clusters then Existing(rs, s, c) else (before.summaries[c], before.statuses[c])
    {
      var c :| c in todo;
      var (summary, status) := Existing(rs, s, c);
      summaries, statuses, todo := summaries[c := summary], statuses[c := status], todo - {c};
    }
    p := before.(summaries := summaries, statuses := statuses);
  }

  method RecordRollout(ref: Ref, before: Plan) returns (p: Plan)
    requires NamedIn(ref.decision.toRollout) <= ref.clusters <= before.statuses.Keys
    ensures p.rollout == before.rollout + NamedIn(ref.decision.toRollout)
    ensures p.timedOut == before.timedOut && p.summaries == before.summaries
    ensures p.statuses.Keys == before.statuses.Keys
    ensures forall c :: c in p.statuses ==>
              p.statuses[c] == LastReport(ref.decision.toRollout, c).Or(before.statuses[c])
  {
    var reports := ref.decision.toRollout;
    p := before;
    for i := 0 to |reports|
      invariant p.rollout == before.rollout + NamedIn(reports[..i])
      invariant p.timedOut == before.timedOut && p.summaries == before.summaries
      invariant p.statuses.Keys == before.statuses.Keys
      invariant forall c :: c in p.statuses ==>
                  p.statuses[c] == LastReport(reports[..i], c).Or(before.statuses[c])
    {
      assert reports[..i + 1] == reports[..i] + [reports[i]];
      NamedGrows(reports[..i], reports[i]);
      if reports[i].cluster != "" {
        assert reports[i].cluster in NamedIn(reports);
        p := p.(statuses := p.statuses[reports[i].cluster := reports[i].progress],
                rollout := p.rollout + {reports[i].cluster});
      }
    }
    assert reports[..|reports|] == reports;
  }

  method RecordTimeOut(ref: Ref, before: Plan) returns (p: Plan)
    requires NamedIn(ref.decision.timeOut) <= ref.clusters <= before.statuses.Keys
    requires before.statuses.Keys == before.summaries.Keys
    ensures p.timedOut == before.timedOut + NamedIn(ref.decision.timeOut)
    ensures p.rollout == before.rollout
    ensures p.statuses.Keys == p.summaries.Keys == before.statuses.Keys
    ensures forall c :: c in p.statuses ==>
              && p.statuses[c] == LastReport(ref.decision.timeOut, c).Or(before.statuses[c])
              && p.summaries[c] == SummaryAfter(ref.decision.timeOut, before.summaries[c], c)
  {
    var reports := ref.decision.timeOut;
    var statuses, summaries, timedOut := before.statuses, before.summaries, before.timedOut;
    for i := 0 to |reports|
      invariant TimedOutUpTo(reports[..i], before, statuses, summaries, timedOut)
    {
      assert reports[..i + 1] == reports[..i] + [reports[i]];
      assert reports[i].cluster != "" ==> reports[i].cluster in NamedIn(reports);
      statuses, summaries, timedOut := RecordReport(reports[..i], reports[i], before, statuses, summaries, timedOut);
    }
    assert reports[..|reports|] == reports;
    p := before.(statuses := statuses, summaries := summaries, timedOut := timedOut);
  }

  /** What the time-out reports seen so far have changed. */
  ghost predicate TimedOutUpTo(seen: seq<ClusterStatus>, before: Plan,
                               statuses: map<string, Progress>, summaries: map<string, Summary>, timedOut: set<string>)
  {
    && timedOut == before.timedOut + NamedIn(seen)
    && statuses.Keys == summaries.Keys == before.statuses.Keys == before.summaries.Keys
    && forall c :: c in statuses ==>
         && statuses[c] == LastReport(seen, c).Or(before.statuses[c])
         && summaries[c] == SummaryAfter(seen, before.summaries[c], c)
  }

  method RecordReport(ghost seen: seq<ClusterStatus>, report: ClusterStatus, ghost before: Plan,
                      statuses: map<string, Progress>, summaries: map<string, Summary>, timedOut: set<string>)
    returns (statuses': map<string, Progress>, summaries': map<string, Summary>, timedOut': set<string>)
    requires TimedOutUpTo(seen, before, statuses, summaries, timedOut)
    requires report.cluster == "" || report.cluster in statuses
    ensures TimedOutUpTo(seen + [report], before, statuses', summaries', timedOut')
  {
    statuses', summaries', timedOut' := statuses, summaries, timedOut;
    NamedGrows(seen, report);
    var ClusterStatus(c, progress) := report;
    if c == "" {
      return;
    }
    statuses', summaries' := statuses[c := progress], summaries[c := FromStatus(c, progress)];
    timedOut' := timedOut + {c};
  }
}
