/** When a config pass that reaches the webhook runtime asks to run again. Durations are in nanoseconds. */
module RequeueSchedule {

  const SECOND := 1_000_000_000
  const MINUTE := 60 * SECOND
  const HOUR := 60 * MINUTE
  const DAY := 24 * HOUR

  const TRANSIENT_REQUEUE := 30 * SECOND
  const DEPENDENCY_STEADY_STATE_REQUEUE := HOUR
  const CERT_VALIDITY := 365 * DAY
  const CERT_RENEWAL_THRESHOLD := 30 * DAY
  const CERT_REQUEUE_MINIMUM := MINUTE
  const CERT_REQUEUE_MAXIMUM := DAY

  function NextWebhookCertRequeue(certNotAfter: int, now: int): int {
    var requeue := certNotAfter - CERT_RENEWAL_THRESHOLD - now;
    if requeue < CERT_REQUEUE_MINIMUM then CERT_REQUEUE_MINIMUM
    else if requeue > CERT_REQUEUE_MAXIMUM then CERT_REQUEUE_MAXIMUM
    else requeue
  }

  /** The time to the renewal threshold, within a minute and a day. */
  lemma NextWebhookCertRequeueIs(certNotAfter: int, now: int)
    ensures var left, r := certNotAfter - 30 * DAY - now, NextWebhookCertRequeue(certNotAfter, now);
            && MINUTE <= r <= DAY
            && (left <= MINUTE ==> r == MINUTE) && (MINUTE <= left <= DAY ==> r == left) && (left >= DAY ==> r == DAY)
  {
  }

  datatype Schedule = Schedule(readinessRetryAfter: int, certRenewalAfter: int)

  /** The first non-zero value, as cmp.Or picks it. */
  function FirstNonZero(durations: seq<int>): int {
    if durations == [] then 0
    else if durations[0] != 0 then durations[0]
    else FirstNonZero(durations[1..])
  }

  predicate AllZero(durations: seq<int>) {
    forall i :: 0 <= i < |durations| ==> durations[i] == 0
  }

  /** It is the value at some position, everything before it is zero, and it is zero only when all values are. */
  lemma {:induction false} FirstNonZeroIs(durations: seq<int>)
    ensures FirstNonZero(durations) == 0 <==> AllZero(durations)
    ensures FirstNonZero(durations) != 0 ==>
              exists i :: 0 <= i < |durations| && durations[i] == FirstNonZero(durations) && AllZero(durations[..i])
  {
    if durations != [] && durations[0] == 0 {
      var rest := durations[1..];
      FirstNonZeroIs(rest);
      assert durations == [0] + rest;
      if FirstNonZero(rest) != 0 {
        var i :| 0 <= i < |rest| && rest[i] == FirstNonZero(rest) && AllZero(rest[..i]);
        assert durations[..i + 1] == [0] + rest[..i];
        assert durations[i + 1] == FirstNonZero(durations) && AllZero(durations[..i + 1]);
      }
    } else if durations != [] {
      assert AllZero(durations[..0]);
    }
  }

  ghost predicate IsMinNonZero(durations: seq<int>, smallest: int) {
    && (smallest == 0 <==> forall d :: d in durations ==> d <= 0)
    && (smallest != 0 ==> smallest > 0 && smallest in durations)
    && (smallest != 0 ==> forall d :: d in durations && d > 0 ==> smallest <= d)
  }

  lemma MinExtends(durations: seq<int>, smallest: int, d: int)
    requires IsMinNonZero(durations, smallest)
    ensures IsMinNonZero(durations + [d], if d > 0 && (smallest == 0 || d < smallest) then d else smallest)
  {
    var all := durations + [d];
    assert forall x :: x in all <==> x in durations || x == d;
    assert d in all;
  }

  method MinNonZeroDuration(durations: seq<int>) returns (smallest: int)
    ensures IsMinNonZero(durations, smallest)
  {
    smallest := 0;
    for i := 0 to |durations|
      invariant IsMinNonZero(durations[..i], smallest)
    {
      MinExtends(durations[..i], smallest, durations[i]);
      assert durations[..i + 1] == durations[..i] + [durations[i]];
      if durations[i] <= 0 {
        continue;
      }
      if smallest == 0 || durations[i] < smallest {
        smallest := durations[i];
      }
    }
    assert durations[..|durations|] == durations;
  }

  method WebhookRuntimeRequeueAfter(s: Schedule, ready: bool) returns (after: int)
    ensures ready && s.certRenewalAfter != 0 ==> after == s.certRenewalAfter
    ensures ready && s.certRenewalAfter == 0 && s.readinessRetryAfter != 0 ==> after == s.readinessRetryAfter
    ensures ready && s.certRenewalAfter == 0 && s.readinessRetryAfter == 0 ==> after == TRANSIENT_REQUEUE
    ensures s.certRenewalAfter >= 0 && s.readinessRetryAfter >= 0 ==> after > 0
    ensures !ready ==> IsMinNonZero([s.readinessRetryAfter, s.certRenewalAfter, TRANSIENT_REQUEUE], after)
  {
    if ready {
      FirstNonZeroIs([s.certRenewalAfter, s.readinessRetryAfter, TRANSIENT_REQUEUE]);
      after := FirstNonZero([s.certRenewalAfter, s.readinessRetryAfter, TRANSIENT_REQUEUE]);
    } else {
      after := MinNonZeroDuration([s.readinessRetryAfter, s.certRenewalAfter, TRANSIENT_REQUEUE]);
      assert TRANSIENT_REQUEUE in [s.readinessRetryAfter, s.certRenewalAfter, TRANSIENT_REQUEUE];
    }
  }

  function ResultWithDependencySafetyRequeue(requeueAfter: int): int {
    if requeueAfter == 0 then DEPENDENCY_STEADY_STATE_REQUEUE
    else if requeueAfter > DEPENDENCY_STEADY_STATE_REQUEUE then DEPENDENCY_STEADY_STATE_REQUEUE
    else requeueAfter
  }

  /** How the webhook runtime step of an error-free config pass can end. */
  datatype Ending =
    | InventoryNotReady
    | ClusterNotEngaged
    | NamespacePending
    | Applied(certNotAfter: int, ready: bool)

  /** The requeue an error-free config pass returns, at time `now`. */
  method ConfigPassRequeue(e: Ending, now: int) returns (after: int)
    ensures 0 < after <= DEPENDENCY_STEADY_STATE_REQUEUE
    ensures e.Applied? ==> after <= NextWebhookCertRequeue(e.certNotAfter, now)
    ensures e.Applied? ==> after <= MINUTE || now + after <= e.certNotAfter - 30 * DAY
    ensures e.Applied? && e.ready ==>
              var left := e.certNotAfter - 30 * DAY - now;
              after == if left < MINUTE then MINUTE else if left > HOUR then HOUR else left
    ensures e.Applied? && !e.ready ==> after == 30 * SECOND
    ensures !e.Applied? ==> after == 30 * SECOND
  {
    var requested;
    match e {
      case InventoryNotReady => requested := TRANSIENT_REQUEUE;
      case ClusterNotEngaged => requested := TRANSIENT_REQUEUE;
      case NamespacePending =>
        requested := WebhookRuntimeRequeueAfter(Schedule(TRANSIENT_REQUEUE, 0), false);
        assert TRANSIENT_REQUEUE in [TRANSIENT_REQUEUE, 0, TRANSIENT_REQUEUE];
      case Applied(certNotAfter, ready) =>
        var renewal := NextWebhookCertRequeue(certNotAfter, now);
        requested := WebhookRuntimeRequeueAfter(Schedule(TRANSIENT_REQUEUE, renewal), ready);
        assert renewal in [TRANSIENT_REQUEUE, renewal, TRANSIENT_REQUEUE];
        assert TRANSIENT_REQUEUE in [TRANSIENT_REQUEUE, renewal, TRANSIENT_REQUEUE];
    }
    after := ResultWithDependencySafetyRequeue(requested);
  }

  /**
   A pass that starts on time starts before the certificate enters its renewal
   window, or within the minute; either way it leaves more than 29 days.
   */
  lemma RequeuePrecedesExpiry(certNotAfter: int, now: int, after: int)
    requires certNotAfter >= now + CERT_RENEWAL_THRESHOLD
    requires after <= NextWebhookCertRequeue(certNotAfter, now)
    ensures now + after <= certNotAfter - CERT_RENEWAL_THRESHOLD || after <= CERT_REQUEUE_MINIMUM
    ensures now + after < certNotAfter - 29 * DAY
  {
  }
}
