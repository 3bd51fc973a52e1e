/** What the list of attempts says about a record, and what saving an attempt keeps. */
module History {
  import opened Common
  import opened Errors
  import opened TaskKey
  import opened Backoff

  /** The number of unsuccessful attempts. */
  function Failures(attempts: seq<Attempt>): (n: nat)
    ensures n <= |attempts|
  {
    if attempts == [] then 0
    else Failures(attempts[..|attempts| - 1]) + if attempts[|attempts| - 1].success then 0 else 1
  }

  /** The time before which the next attempt may not begin: the end of the last failure plus
      its backoff, or the zero time when there was no failure. */
  function DueTime(attempts: seq<Attempt>, delay: nat -> Duration): Instant {
    if attempts == [] then ZERO_TIME
    else
      var before := attempts[..|attempts| - 1];
      var last := attempts[|attempts| - 1];
      if last.success then DueTime(before, delay)
      else last.end + delay(Failures(before))
  }

  /** Attempts follow one another without overlap, and each begins when it is due or later. */
  predicate Orderly(attempts: seq<Attempt>, delay: nat -> Duration) {
    attempts == [] ||
    var before := attempts[..|attempts| - 1];
    var last := attempts[|attempts| - 1];
    && Orderly(before, delay)
    && last.begin <= last.end
    && DueTime(before, delay) <= last.begin
    && (before != [] ==> before[|before| - 1].end <= last.begin)
  }

  /** Every field the program maintains beside the attempts follows from the attempts. */
  predicate Consistent(rec: DocumentTask, delay: nat -> Duration) {
    && rec.attempts != []
    && Orderly(rec.attempts, delay)
    && rec.retryCount == Failures(rec.attempts)
    && rec.retryAfter == DueTime(rec.attempts, delay)
    && rec.recordCreated == rec.attempts[0].begin
    && rec.recordUpdated == rec.attempts[|rec.attempts| - 1].end
  }

  predicate LastFailed(rec: DocumentTask) {
    rec.attempts != [] && !rec.attempts[|rec.attempts| - 1].success && rec.retryCount > 0
  }

  /** A record no attempt was saved to yet. */
  predicate Unsaved(rec: DocumentTask) {
    rec.attempts == [] && rec.retryCount == 0 && rec.retryAfter == ZERO_TIME
  }

  /** The record of an attempt that began at `begin`, as it is while the attempt runs. */
  predicate Ready(rec: DocumentTask, begin: Instant, delay: nat -> Duration) {
    && ((Unsaved(rec) && rec.recordCreated == begin) || (Consistent(rec, delay) && rec.recordUpdated <= begin))
    && ZERO_TIME <= begin
    && rec.retryAfter <= begin
  }

  /** The record SaveResult writes. */
  function Saved(rec: DocumentTask, begin: Instant, now: Instant, err: Option<Error>, retryAfter: Duration): (r: DocumentTask)
  {
    var message := if err.Some? then Text(err.value) else "";
    rec.(retryCount := if err.Some? then rec.retryCount + 1 else rec.retryCount,
         retryAfter := if err.Some? then now + retryAfter else rec.retryAfter,
         recordUpdated := now,
         attempts := rec.attempts + [Attempt(begin, now, err.None?, message)])
  }

  lemma AppendAttempt(attempts: seq<Attempt>, a: Attempt, delay: nat -> Duration)
    ensures Failures(attempts + [a]) == Failures(attempts) + if a.success then 0 else 1
    ensures DueTime(attempts + [a], delay) ==
            if a.success then DueTime(attempts, delay) else a.end + delay(Failures(attempts))
    ensures Orderly(attempts + [a], delay) <==>
            && Orderly(attempts, delay) && a.begin <= a.end && DueTime(attempts, delay) <= a.begin
            && (attempts != [] ==> attempts[|attempts| - 1].end <= a.begin)
  {
    assert (attempts + [a])[..|attempts|] == attempts;
  }

  /** Saving the result of an attempt keeps the record consistent and only appends to it. */
  lemma SaveKeepsConsistent(rec: DocumentTask, begin: Instant, now: Instant, err: Option<Error>, delay: nat -> Duration)
    requires Ready(rec, begin, delay) && begin <= now
    ensures var r := Saved(rec, begin, now, err, delay(rec.retryCount));
            && Consistent(r, delay)
            && rec.attempts < r.attempts
            && KeyOf(r) == KeyOf(rec)
  {
    var r := Saved(rec, begin, now, err, delay(rec.retryCount));
    AppendAttempt(rec.attempts, r.attempts[|rec.attempts|], delay);
    assert rec.retryCount == Failures(rec.attempts) && rec.retryAfter == DueTime(rec.attempts, delay);
  }

  // ---------------------------------------------------------------- consequences for whole records

  lemma {:induction false} OrderlyPrefix(attempts: seq<Attempt>, n: nat, delay: nat -> Duration)
    requires Orderly(attempts, delay) && n <= |attempts|
    ensures Orderly(attempts[..n], delay)
    decreases |attempts|
  {
    if n < |attempts| {
      OrderlyPrefix(attempts[..|attempts| - 1], n, delay);
      assert attempts[..|attempts| - 1][..n] == attempts[..n];
    } else {
      assert attempts[..n] == attempts;
    }
  }

  /** Attempts never overlap: an earlier one has ended when a later one begins. */
  lemma {:induction false} AttemptsDoNotOverlap(attempts: seq<Attempt>, i: nat, j: nat, delay: nat -> Duration)
    requires Orderly(attempts, delay) && i < j < |attempts|
    ensures attempts[i].begin <= attempts[i].end <= attempts[j].begin <= attempts[j].end
    decreases j
  {
    OrderlyPrefix(attempts, j + 1, delay);
    OrderlyPrefix(attempts, j, delay);
    assert attempts[..j + 1][..j] == attempts[..j];
    if i + 1 == j {
      assert attempts[..j][..i] == attempts[..i];
    } else {
      AttemptsDoNotOverlap(attempts, i, j - 1, delay);
    }
  }

  lemma {:induction false} AllFailedCount(attempts: seq<Attempt>)
    requires forall i | 0 <= i < |attempts| :: !attempts[i].success
    ensures Failures(attempts) == |attempts|
  {
    if attempts != [] {
      AllFailedCount(attempts[..|attempts| - 1]);
    }
  }

  /** After m failures in a row the next attempt waited for every one of the delays. */
  lemma {:induction false} DelaysAddUp(attempts: seq<Attempt>, m: nat, delay: nat -> Duration)
    requires Orderly(attempts, delay)
    requires 1 <= m < |attempts| && forall i | 0 <= i < m :: !attempts[i].success
    ensures attempts[m].begin >= attempts[0].end + TotalDelay(delay, m)
    decreases m
  {
    OrderlyPrefix(attempts, m + 1, delay);
    var before := attempts[..m + 1][..m];
    assert before == attempts[..m];
    assert before[..m - 1] == attempts[..m - 1];
    AllFailedCount(attempts[..m - 1]);
    assert DueTime(before, delay) == attempts[m - 1].end + delay(m - 1);
    if m == 1 {
      assert TotalDelay(delay, 1) == TotalDelay(delay, 0) + delay(0);
    } else {
      DelaysAddUp(attempts, m - 1, delay);
      OrderlyPrefix(attempts, m, delay);
    }
  }

  /** When the first m attempts of a record failed, the next one begins more than
      4.5 * (1.5^m - 1) - m poll intervals after the first one ended. */
  lemma BackoffOverRun(rec: DocumentTask, m: nat, pollInterval: Duration)
    requires Consistent(rec, Delays(pollInterval))
    requires 0 < pollInterval && 1 <= m < |rec.attempts| && ProductFits(pollInterval, m - 1)
    requires forall i | 0 <= i < m :: !rec.attempts[i].success
    ensures (rec.attempts[m].begin - rec.attempts[0].end) as real > ScaledBound(pollInterval as real, m)
  {
    DelaysAddUp(rec.attempts, m, Delays(pollInterval));
    TotalDelayBound(pollInterval, m);
  }
}
