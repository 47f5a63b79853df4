/** The retry loop shared by the dated and day-ahead report fetchers: at most `MaxRetries`
    requests, a pause of `RetryDelaySeconds * (attempt + 1)` after each retried failure except the
    last, and an immediate end on an unexpected error (and, when the caller checks for it before
    `raise_for_status`, on a 404). */
module Retry {
  import opened Wrappers

  const MaxRetries: nat := 3
  const RetryDelaySeconds: nat := 5

  /** What one request yields: a decoded document, a 404, a timeout, another HTTP error, or an
      unexpected error (malformed XML included). */
  datatype Attempt<D> = Got(doc: D) | NotFound | TimedOut | HttpFailed | Broken

  /** Whether the loop tries again after this outcome. A 404 is retried as an HTTP error unless
      the caller returns on it first. */
  predicate Retried<D>(a: Attempt<D>, stopOnNotFound: bool) {
    a.TimedOut? || a.HttpFailed? || (a.NotFound? && !stopOnNotFound)
  }

  /** The outcomes of the successive requests for `url`, where `server(url, k)` is the outcome of
      attempt k. */
  function AttemptsAt<D>(server: (string, nat) -> Attempt<D>, url: string): nat -> Attempt<D> {
    (k: nat) => server(url, k)
  }

  /** The observable run of the loop: the parsed root (if any), how many requests were made and
      the pauses taken, in order, in seconds. */
  datatype Run<D> = Run(root: Option<D>, calls: nat, sleeps: seq<nat>)

  function Delay(attempt: nat): nat {
    RetryDelaySeconds * (attempt + 1)
  }

  /** The run from attempt number `attempt` on, where `server(k)` is the outcome of attempt k. */
  function RunFrom<D>(server: nat -> Attempt<D>, stopOnNotFound: bool, attempt: nat): Run<D>
    decreases MaxRetries - attempt
  {
    if attempt >= MaxRetries then Run(None, 0, [])
    else
      var outcome := server(attempt);
      if outcome.Got? then Run(Some(outcome.doc), 1, [])
      else if Retried(outcome, stopOnNotFound) then
        var rest := RunFrom(server, stopOnNotFound, attempt + 1);
        Run(rest.root, 1 + rest.calls, PauseAfter(attempt) + rest.sleeps)
      else Run(None, 1, [])
  }

  /** `r` preceded by `calls` requests that paused for `sleeps`. */
  function After<D>(calls: nat, sleeps: seq<nat>, r: Run<D>): Run<D> {
    Run(r.root, calls + r.calls, sleeps + r.sleeps)
  }

  /** The pause taken after a retried failure of attempt `attempt`: none after the last. */
  function PauseAfter(attempt: nat): seq<nat> {
    if attempt < MaxRetries - 1 then [Delay(attempt)] else []
  }

  lemma RetryStep<D>(server: nat -> Attempt<D>, stopOnNotFound: bool, attempt: nat, calls: nat, sleeps: seq<nat>)
    requires attempt < MaxRetries && !server(attempt).Got? && Retried(server(attempt), stopOnNotFound)
    ensures After(calls, sleeps, RunFrom(server, stopOnNotFound, attempt))
         == After(calls + 1, sleeps + PauseAfter(attempt), RunFrom(server, stopOnNotFound, attempt + 1))
  {
    var rest := RunFrom(server, stopOnNotFound, attempt + 1);
    assert sleeps + (PauseAfter(attempt) + rest.sleeps) == sleeps + PauseAfter(attempt) + rest.sleeps;
  }

  /** The `for attempt in range(MAX_RETRIES)` loop. */
  method FetchWithRetry<D>(server: nat -> Attempt<D>, stopOnNotFound: bool)
    returns (root: Option<D>, calls: nat, sleeps: seq<nat>)
    ensures Run(root, calls, sleeps) == RunFrom(server, stopOnNotFound, 0)
  {
    root, calls, sleeps := None, 0, [];
    assert After(0, [], RunFrom(server, stopOnNotFound, 0)) == RunFrom(server, stopOnNotFound, 0);
    for attempt := 0 to MaxRetries
      invariant calls == attempt
      invariant RunFrom(server, stopOnNotFound, 0) == After(calls, sleeps, RunFrom(server, stopOnNotFound, attempt))
    {
      var outcome := server(attempt);
      if outcome.Got? {
        root, calls := Some(outcome.doc), calls + 1;
        return;
      } else if Retried(outcome, stopOnNotFound) {
        RetryStep(server, stopOnNotFound, attempt, calls, sleeps);
        calls, sleeps := calls + 1, sleeps + PauseAfter(attempt);
      } else {
        calls := calls + 1;
        return;
      }
    }
    assert sleeps + [] == sleeps;
  }

  /** From attempt `attempt` on, at most the remaining number of requests are made, at least one
      when any remain, and the pauses come only between requests, growing by five seconds each. */
  lemma {:induction false} RunBounds<D>(server: nat -> Attempt<D>, stopOnNotFound: bool, attempt: nat)
    requires attempt <= MaxRetries
    ensures var r := RunFrom(server, stopOnNotFound, attempt);
      && r.calls <= MaxRetries - attempt
      && (attempt < MaxRetries ==> r.calls >= 1)
      && |r.sleeps| == (if r.calls == 0 then 0 else r.calls - 1)
      && forall k :: 0 <= k < |r.sleeps| ==> r.sleeps[k] == Delay(attempt + k)
    decreases MaxRetries - attempt
  {
    if attempt < MaxRetries {
      var outcome := server(attempt);
      if !outcome.Got? && Retried(outcome, stopOnNotFound) {
        RunBounds(server, stopOnNotFound, attempt + 1);
        var rest := RunFrom(server, stopOnNotFound, attempt + 1);
        var r := RunFrom(server, stopOnNotFound, attempt);
        if attempt < MaxRetries - 1 {
          assert r.sleeps == [Delay(attempt)] + rest.sleeps;
          forall k | 0 <= k < |r.sleeps|
            ensures r.sleeps[k] == Delay(attempt + k)
          {
            if k > 0 {
              assert r.sleeps[k] == rest.sleeps[k - 1];
            }
          }
        }
      }
    }
  }

  /** A whole run makes at most three requests and pauses 5 s then 10 s at most: 15 s in all. */
  lemma RunPauses<D>(server: nat -> Attempt<D>, stopOnNotFound: bool)
    ensures var r := RunFrom(server, stopOnNotFound, 0);
      1 <= r.calls <= MaxRetries && r.sleeps == [5, 10][..r.calls - 1]
  {
    RunBounds(server, stopOnNotFound, 0);
    var r := RunFrom(server, stopOnNotFound, 0);
    assert r.sleeps == [5, 10][..r.calls - 1];
  }

  /** Attempt `k` is the first that did not fail in a retried way, and it delivered `doc`. */
  ghost predicate SucceedsAt<D>(server: nat -> Attempt<D>, stopOnNotFound: bool, from: nat, k: nat, doc: D) {
    from <= k < MaxRetries && server(k) == Got(doc)
    && forall j :: from <= j < k ==> Retried(server(j), stopOnNotFound)
  }

  /** The loop ends with a document exactly when some attempt delivers it after only retried
      failures; a 404 (when checked first) or an unexpected error ends it empty-handed. */
  lemma {:induction false} RunSucceeds<D>(server: nat -> Attempt<D>, stopOnNotFound: bool, from: nat, doc: D)
    requires from <= MaxRetries
    ensures RunFrom(server, stopOnNotFound, from).root == Some(doc)
            <==> exists k :: SucceedsAt(server, stopOnNotFound, from, k, doc)
    decreases MaxRetries - from
  {
    if from < MaxRetries {
      var outcome := server(from);
      if outcome.Got? {
        if outcome.doc == doc {
          assert SucceedsAt(server, stopOnNotFound, from, from, doc);
        } else {
          forall k: nat | SucceedsAt(server, stopOnNotFound, from, k, doc)
            ensures false
          {
          }
        }
      } else if Retried(outcome, stopOnNotFound) {
        RunSucceeds(server, stopOnNotFound, from + 1, doc);
        if RunFrom(server, stopOnNotFound, from + 1).root == Some(doc) {
          var k :| SucceedsAt(server, stopOnNotFound, from + 1, k, doc);
          assert SucceedsAt(server, stopOnNotFound, from, k, doc);
        }
        forall k: nat | SucceedsAt(server, stopOnNotFound, from, k, doc)
          ensures SucceedsAt(server, stopOnNotFound, from + 1, k, doc)
        {
        }
      } else {
        forall k: nat | SucceedsAt(server, stopOnNotFound, from, k, doc)
          ensures false
        {
        }
      }
    }
  }

  /** Three retried failures in a row exhaust the loop: three requests, pauses of 5 s and 10 s,
      and no document. */
  lemma RunExhausted<D>(server: nat -> Attempt<D>, stopOnNotFound: bool)
    requires forall k :: 0 <= k < MaxRetries ==> Retried(server(k), stopOnNotFound)
    ensures RunFrom(server, stopOnNotFound, 0) == Run(None, 3, [5, 10])
  {
    assert Retried(server(0), stopOnNotFound) && Retried(server(1), stopOnNotFound) && Retried(server(2), stopOnNotFound);
  }
}
