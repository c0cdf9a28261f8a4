/**
  The newer `PullImage`: the image pull is the one request the package wraps
  in its bounded retry, started at attempt 0 with no earlier error. Each
  invocation of the retried operation is one pull request.
 */
module Images {
  import opened Types
  import opened Remote
  import opened Daap
  import opened Retries

  /** The retried operation: its k-th invocation is the daemon's pull number
      `base + k`, where `base` pulls happened on this world before. */
  function PullOp(s: Script, base: nat): (op: nat -> Option<Error>)
  {
    (k: nat) => s.pull(base + k)
  }

  /** The error `PullImage` returns for a retry outcome: the retry's error
      behind the context "Image Pull Error", or none. */
  function PullError(o: Outcome): (err: Option<Error>)
  {
    if o.err.Some? then Some(Wrapped("Image Pull Error", o.err.value)) else None
  }

  /** `PullImage` up to the progress stream: a client, then the retried pull.
      The retry decides how many times the closure runs; each run issues one
      pull request, and the k-th run sees the daemon's answer `PullOp(k)`. */
  method PullImage(c: Container, w: World) returns (err: Option<Error>)
    modifies w`trace, w`connects, w`pulls
    ensures w.connects == old(w.connects) + 1
    ensures w.script.connect(old(w.connects)).Some? ==>
              err == w.script.connect(old(w.connects)) && w.trace == old(w.trace) + [Connect] && w.pulls == old(w.pulls)
    ensures w.script.connect(old(w.connects)).None? ==>
              var o := Retry(c.RetryCount, PullOp(w.script, old(w.pulls)), 0, None, 0);
              && err == PullError(o)
              && w.trace == old(w.trace) + [Connect] + Repeat(ImagePull(c.Image), o.invocations)
              && w.pulls == old(w.pulls) + o.invocations
  {
    err := w.CreateClient();
    if err.Some? {
      return;
    }
    var op := PullOp(w.script, w.pulls);
    var o := Retry(c.RetryCount, op, 0, None, 0);
    // The loop only issues the requests; what the retry decides (how many
    // attempts, which error it keeps) is `Retries.Retry`'s outcome `o`.
    var start := w.trace;
    var k := 0;
    while k < o.invocations
      invariant 0 <= k <= o.invocations
      invariant w.trace == start + Repeat(ImagePull(c.Image), k)
      invariant w.pulls == old(w.pulls) + k && w.connects == old(w.connects) + 1
    {
      var r := w.ImagePull(c.Image);
      assert r.Failure? <==> op(k).Some?;
      k := k + 1;
    }
    err := PullError(o);
  }

  /** With the default budget of 0, a failing pull is requested once and its
      own error is returned behind the pull context. */
  lemma DefaultBudgetPullsOnce(s: Script, base: nat)
    requires s.pull(base).Some?
    ensures var o := Retry(0, PullOp(s, base), 0, None, 0);
      o.invocations == 1 && PullError(o) == Some(Wrapped("Image Pull Error", s.pull(base).value))
  {
    ZeroBudgetReturnsRawError(PullOp(s, base));
  }

  /** With budget N > 0 and a daemon that refuses every pull, N+1 pulls are
      requested and the error reports the budget and the last refusal. */
  lemma RefusedPullsExhaustBudget(n: int, s: Script, base: nat)
    requires n > 0
    requires forall k: nat :: base <= k <= base + n ==> s.pull(k).Some?
    ensures var o := Retry(n, PullOp(s, base), 0, None, 0);
      o.invocations == n + 1 && PullError(o) == Some(Wrapped("Image Pull Error", RetryExceeded(n, s.pull(base + n))))
  {
    var op := PullOp(s, base);
    assert FailsBetween(op, 0, n + 1) by {
      forall i | 0 <= i < n + 1 ensures op(i).Some? {
        assert s.pull(base + i).Some?;
      }
    }
    Exhaustion(n, op);
  }

  /** With budget N > 0, a daemon that refuses K <= N pulls and then serves
      one leads to K+1 pull requests and no error. */
  lemma PullSucceedsAfterRefusals(n: int, s: Script, base: nat, k: nat)
    requires n > 0 && k <= n
    requires forall i: nat :: base <= i < base + k ==> s.pull(i).Some?
    requires s.pull(base + k).None?
    ensures var o := Retry(n, PullOp(s, base), 0, None, 0);
      o.invocations == k + 1 && PullError(o).None?
  {
    var op := PullOp(s, base);
    assert FailsBetween(op, 0, k) by {
      forall i | 0 <= i < k ensures op(i).Some? {
        assert s.pull(base + i).Some?;
      }
    }
    EventualSuccess(n, op, k);
  }
}
