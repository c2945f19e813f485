/** The bounded poll-with-retry engine under every assertion: walk a fixed
    back-off schedule, sleep before each attempt, stop at the first passing
    probe, and hand the last diagnostic to the failure sink when the
    schedule runs out.

    Sleeping is modelled by an explicit millisecond clock: a call takes the
    clock reading at which it starts and reports the reading at which it
    ends. A probe is a function from the clock reading at which it is
    evaluated to its verdict, so "the live value changes while we poll" is
    simply a probe whose verdict depends on that reading. */
module Retry {
  import opened Matchers

  datatype Option<T> = None | Some(value: T)

  /** The wait before each attempt, in milliseconds. */
  const WaitTimes: seq<nat> := [0, 1, 1, 1, 1, 1, 5, 10, 20, 40, 100, 200, 500, 1000, 2000, 4000]

  /** Total of a sequence of waits. */
  function Sum(s: seq<nat>): nat {
    if s == [] then 0 else Sum(s[..|s| - 1]) + s[|s| - 1]
  }

  /** The schedule has 16 entries, starts with no wait and never waits
      less than at the attempt before. */
  lemma ScheduleShape()
    ensures |WaitTimes| == 16 && WaitTimes[0] == 0
    ensures forall i :: 0 < i < |WaitTimes| ==> WaitTimes[i - 1] <= WaitTimes[i]
  {
  }

  /** Non-decreasing step by step means non-decreasing overall. */
  lemma {:induction false} ScheduleNonDecreasing(i: nat, j: nat)
    requires i <= j < |WaitTimes|
    ensures WaitTimes[i] <= WaitTimes[j]
    decreases j - i
  {
    if i < j {
      ScheduleShape();
      ScheduleNonDecreasing(i, j - 1);
    }
  }

  /** The schedule adds up to 7880 ms. */
  lemma ScheduleTotal()
    ensures Sum(WaitTimes) == 7880
  {
    PrefixStep(0); PrefixStep(1); PrefixStep(2); PrefixStep(3);
    PrefixStep(4); PrefixStep(5); PrefixStep(6); PrefixStep(7);
    PrefixStep(8); PrefixStep(9); PrefixStep(10); PrefixStep(11);
    PrefixStep(12); PrefixStep(13); PrefixStep(14); PrefixStep(15);
    assert WaitTimes[..0] == [];
    assert WaitTimes[..|WaitTimes|] == WaitTimes;
  }

  /** Extending a prefix of the schedule by one entry adds that entry. */
  lemma PrefixStep(k: nat)
    requires k < |WaitTimes|
    ensures Sum(WaitTimes[..k + 1]) == Sum(WaitTimes[..k]) + WaitTimes[k]
  {
    assert WaitTimes[..k + 1][..k] == WaitTimes[..k];
  }

  /** The whole schedule: how long a failing assertion waits in all. */
  function TotalWait(): (ms: nat)
    ensures ms == 7880
  {
    ScheduleTotal();
    Sum(WaitTimes)
  }

  /** A longer prefix of the schedule never waits less in total. */
  lemma {:induction false} PrefixSumGrows(i: nat, j: nat)
    requires i <= j <= |WaitTimes|
    ensures Sum(WaitTimes[..i]) <= Sum(WaitTimes[..j])
    decreases j - i
  {
    if i < j {
      PrefixSumGrows(i, j - 1);
      assert WaitTimes[..j][..j - 1] == WaitTimes[..j - 1];
    }
  }

  /** A probe: the verdict it gives when evaluated at clock reading `t`. */
  type Probe = nat -> Verdict

  /** The clock reading at which attempt `k` (0-based) of a loop started at
      `start` evaluates its probe: every wait up to and including the k-th
      has been slept. */
  function AttemptTime(start: nat, k: nat): nat
    requires k < |WaitTimes|
  {
    start + Sum(WaitTimes[..k + 1])
  }

  /** How long after the start each of the 16 attempts evaluates its probe. */
  const AttemptOffsets: seq<nat> := [0, 1, 2, 3, 4, 5, 10, 20, 40, 80, 180, 380, 880, 1880, 3880, 7880]

  /** The attempts of a loop started at `start` happen at `start` plus the
      running totals of the schedule. */
  lemma AttemptTimes(start: nat)
    ensures forall k :: 0 <= k < |WaitTimes| ==> AttemptTime(start, k) == start + AttemptOffsets[k]
  {
    PrefixStep(0); PrefixStep(1); PrefixStep(2); PrefixStep(3);
    PrefixStep(4); PrefixStep(5); PrefixStep(6); PrefixStep(7);
    PrefixStep(8); PrefixStep(9); PrefixStep(10); PrefixStep(11);
    PrefixStep(12); PrefixStep(13); PrefixStep(14); PrefixStep(15);
    assert WaitTimes[..0] == [];
  }

  /** Attempts happen in order, no earlier than the start and no later than
      the whole schedule after it; the first happens at the start itself. */
  lemma AttemptTimeBounds(start: nat, i: nat, j: nat)
    requires i <= j < |WaitTimes|
    ensures start <= AttemptTime(start, i) <= AttemptTime(start, j) <= start + TotalWait()
    ensures AttemptTime(start, 0) == start
    ensures AttemptTime(start, |WaitTimes| - 1) == start + TotalWait()
  {
    PrefixSumGrows(i + 1, j + 1);
    PrefixSumGrows(j + 1, |WaitTimes|);
    assert WaitTimes[..|WaitTimes|] == WaitTimes;
    PrefixStep(0);
    assert WaitTimes[..0] == [];
  }

  /** Whether attempt `k` of a loop started at `start` sees a passing probe. */
  predicate PassesAt(probe: Probe, start: nat, k: nat)
    requires k < |WaitTimes|
  {
    probe(AttemptTime(start, k)).passed
  }

  /** The first attempt at index `k` or later that passes, if any. */
  function FirstPass(probe: Probe, start: nat, k: nat): (r: Option<nat>)
    requires k <= |WaitTimes|
    ensures r.Some? ==> k <= r.value < |WaitTimes| && PassesAt(probe, start, r.value)
    ensures r.Some? ==> forall j :: k <= j < r.value ==> !PassesAt(probe, start, j)
    ensures r.None? <==> forall j :: k <= j < |WaitTimes| ==> !PassesAt(probe, start, j)
    decreases |WaitTimes| - k
  {
    if k == |WaitTimes| then None
    else if PassesAt(probe, start, k) then Some(k)
    else FirstPass(probe, start, k + 1)
  }

  /** The outcome of one assertion: passed, or failed with the diagnostic
      handed to the failure sink (which ends the scenario). */
  datatype Status = Passed | Failed(message: string)

  /** What one assertion did: its outcome, how many times it evaluated a
      probe, and the clock reading when it returned. */
  datatype Report = Report(status: Status, evaluations: nat, clock: nat)

  /** Reference definition of one retry loop started at clock `start`. */
  function RetrySpec(probe: Probe, start: nat): Report {
    match FirstPass(probe, start, 0)
    case Some(k) => Report(Passed, k + 1, AttemptTime(start, k))
    case None =>
      Report(Failed(probe(AttemptTime(start, |WaitTimes| - 1)).message), |WaitTimes|, AttemptTime(start, |WaitTimes| - 1))
  }

  /** The escape hatch: fail at once with `message`, evaluating nothing and
      without waiting. */
  method Fail(message: string, clock: nat) returns (r: Report)
    ensures r.status == Failed(message) && r.evaluations == 0 && r.clock == clock
  {
    r := Report(Failed(message), 0, clock);
  }

  /** Sleep, evaluate, stop at the first pass; fail with the last message
      once the schedule is exhausted. */
  method AssertWithRetries(probe: Probe, start: nat) returns (r: Report)
    ensures r == RetrySpec(probe, start)
    ensures RetryOutcome(probe, start, r)
  {
    var clock := start;
    var message := "";
    var evaluations := 0;
    for i := 0 to |WaitTimes|
      invariant clock == start + Sum(WaitTimes[..i])
      invariant evaluations == i
      invariant forall j :: 0 <= j < i ==> !PassesAt(probe, start, j)
      invariant i > 0 ==> message == probe(AttemptTime(start, i - 1)).message
    {
      clock := clock + WaitTimes[i];  // the sleep
      PrefixStep(i);
      var verdict := probe(clock);
      evaluations := evaluations + 1;
      message := verdict.message;
      if verdict.passed {
        RetryFirstPassAt(probe, start, i);
        r := Report(Passed, evaluations, clock);
        RetryMeaning(probe, start);
        return;
      }
    }
    RetryNeverPasses(probe, start);
    assert WaitTimes[..|WaitTimes|] == WaitTimes;
    r := Fail(message, clock);
    r := r.(evaluations := evaluations);
    RetryMeaning(probe, start);
  }

  /** What one retry loop promises: it passes iff some attempt passes; a
      pass happens at the first passing attempt, after as many evaluations
      as attempts made and the waits slept so far; a failure comes after
      all 16 evaluations and the whole schedule, with the message of the
      last evaluation. */
  ghost predicate RetryOutcome(probe: Probe, start: nat, r: Report) {
    && (r.status.Passed? <==> exists k :: 0 <= k < |WaitTimes| && PassesAt(probe, start, k))
    && (r.status.Passed? ==>
      && 1 <= r.evaluations <= |WaitTimes|
      && PassesAt(probe, start, r.evaluations - 1)
      && (forall j :: 0 <= j < r.evaluations - 1 ==> !PassesAt(probe, start, j))
      && r.clock == AttemptTime(start, r.evaluations - 1))
    && (r.status.Failed? ==>
      && r.evaluations == |WaitTimes|
      && r.clock == start + TotalWait()
      && r.status.message == probe(start + TotalWait()).message)
  }

  /** The reference loop keeps the promise. */
  lemma RetryMeaning(probe: Probe, start: nat)
    ensures RetryOutcome(probe, start, RetrySpec(probe, start))
  {
    AttemptTimeBounds(start, 0, |WaitTimes| - 1);
  }

  /** A loop that passes reports the moment of its passing evaluation. */
  lemma RetryPassedAtClock(probe: Probe, start: nat)
    ensures RetrySpec(probe, start).status.Passed? ==> probe(RetrySpec(probe, start).clock).passed
  {
    RetryMeaning(probe, start);
  }

  /** Whether some attempt of a loop started at `start` sees a pass. */
  ghost predicate PassesSomeAttempt(probe: Probe, start: nat) {
    exists k :: 0 <= k < |WaitTimes| && PassesAt(probe, start, k)
  }

  /** The loop passes iff some attempt passes, even after earlier failures;
      when it passes at its first attempt it has evaluated once and not
      slept past the first (zero) wait. */
  lemma RetryPassesIff(probe: Probe, start: nat)
    ensures RetrySpec(probe, start).status.Passed? <==> PassesSomeAttempt(probe, start)
    ensures probe(start).passed ==> RetrySpec(probe, start) == Report(Passed, 1, start)
  {
    AttemptTimeBounds(start, 0, 0);
  }

  /** If the probe first passes at attempt `k`, the loop evaluates it k+1
      times, has slept the first k+1 waits, and does not fail. */
  lemma RetryFirstPassAt(probe: Probe, start: nat, k: nat)
    requires k < |WaitTimes| && PassesAt(probe, start, k)
    requires forall j :: 0 <= j < k ==> !PassesAt(probe, start, j)
    ensures RetrySpec(probe, start) == Report(Passed, k + 1, start + Sum(WaitTimes[..k + 1]))
  {
    var f := FirstPass(probe, start, 0);
    assert f.Some? by { assert !(forall j :: 0 <= j < |WaitTimes| ==> !PassesAt(probe, start, j)); }
  }

  /** If the probe never passes, the loop evaluates it 16 times, sleeps the
      whole schedule and fails once with the last evaluation's message. */
  lemma RetryNeverPasses(probe: Probe, start: nat)
    requires forall k :: 0 <= k < |WaitTimes| ==> !PassesAt(probe, start, k)
    ensures RetrySpec(probe, start) == Report(Failed(probe(start + 7880).message), 16, start + 7880)
  {
    AttemptTimeBounds(start, 0, |WaitTimes| - 1);
  }

  /** A loop never runs longer than the schedule, and reports at least one
      and at most 16 evaluations. */
  lemma RetryBounds(probe: Probe, start: nat)
    ensures start <= RetrySpec(probe, start).clock <= start + TotalWait()
    ensures 1 <= RetrySpec(probe, start).evaluations <= |WaitTimes|
  {
    var f := FirstPass(probe, start, 0);
    if f.Some? {
      AttemptTimeBounds(start, f.value, |WaitTimes| - 1);
    } else {
      AttemptTimeBounds(start, 0, |WaitTimes| - 1);
    }
  }

  /** A probe that passes at every reading from `settle` on makes the loop
      pass, provided `settle` is within the schedule's whole budget. */
  lemma RetryPassesOnceSettled(probe: Probe, start: nat, settle: nat)
    requires settle <= start + TotalWait()
    requires forall t :: settle <= t ==> probe(t).passed
    ensures RetrySpec(probe, start).status.Passed?
  {
    AttemptTimeBounds(start, 0, |WaitTimes| - 1);
    assert PassesAt(probe, start, |WaitTimes| - 1);
    RetryPassesIff(probe, start);
  }

  /** Probes that pass at the same readings find the same first pass. */
  lemma {:induction false} FirstPassAgrees(p: Probe, q: Probe, start: nat, k: nat)
    requires k <= |WaitTimes|
    requires forall t :: p(t).passed == q(t).passed
    ensures FirstPass(p, start, k) == FirstPass(q, start, k)
    decreases |WaitTimes| - k
  {
    if k < |WaitTimes| {
      FirstPassAgrees(p, q, start, k + 1);
    }
  }

  /** Two probes that pass at exactly the same readings give the same
      outcome kind, evaluation count and clock; only a failure message may
      differ. */
  lemma RetryAgrees(p: Probe, q: Probe, start: nat)
    requires forall t :: p(t).passed == q(t).passed
    ensures RetrySpec(p, start).status.Passed? == RetrySpec(q, start).status.Passed?
    ensures RetrySpec(p, start).evaluations == RetrySpec(q, start).evaluations
    ensures RetrySpec(p, start).clock == RetrySpec(q, start).clock
  {
    FirstPassAgrees(p, q, start, 0);
  }

  /** The report of `first` followed by `second`: a failed `first` is the
      whole report, so only the first failure is reported. The callers do
      not run `second` at all once `first` failed. */
  function Then(first: Report, second: Report): (r: Report)
    ensures first.status.Failed? ==> r == first
    ensures first.status.Passed? ==> r.status == second.status && r.clock == second.clock
    ensures r.status.Passed? <==> first.status.Passed? && second.status.Passed?
    ensures first.status.Passed? ==> r.evaluations == first.evaluations + second.evaluations
  {
    if first.status.Passed? then Report(second.status, first.evaluations + second.evaluations, second.clock)
    else first
  }
}
