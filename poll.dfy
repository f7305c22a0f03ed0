/**
 * The wait for the update to finish: one status fetch, a fixed 30-second
 * sleep, then 10-second sleeps with a fresh fetch each while the status is
 * "In Progress" and the time waited is within the configured timeout.
 * Sleeping is modelled by the counter of seconds waited.
 */
module Poll {
  import opened Wrappers
  import opened Api

  const IN_PROGRESS := "In Progress"
  const ACTIVE := "Active"
  const INITIAL_WAIT := 30
  const POLL_INTERVAL := 10

  /** `time_waited` after `k` iterations of the loop. */
  function WaitedAfter(k: nat): int
  {
    INITIAL_WAIT + POLL_INTERVAL * k
  }

  /** The loop guard. */
  predicate KeepsWaiting(timeout: int, status: Option<string>, timeWaited: int)
  {
    status == Some(IN_PROGRESS) && timeWaited <= timeout
  }

  /**
   * The number of iterations the loop runs when it has already run `k`
   * and `fetched(j)` is the status the j-th fetch returns (fetch 0 comes
   * before the loop): the first `n >= k` at which the guard is false.
   */
  function PollCountFrom(timeout: int, fetched: nat -> Option<string>, k: nat): (n: nat)
    ensures k <= n
    ensures forall j :: k <= j < n ==> KeepsWaiting(timeout, fetched(j), WaitedAfter(j))
    ensures !KeepsWaiting(timeout, fetched(n), WaitedAfter(n))
    decreases timeout - WaitedAfter(k)
  {
    if KeepsWaiting(timeout, fetched(k), WaitedAfter(k)) then PollCountFrom(timeout, fetched, k + 1) else k
  }

  function PollCount(timeout: int, fetched: nat -> Option<string>): nat
  {
    PollCountFrom(timeout, fetched, 0)
  }

  /** The most iterations a timeout allows. */
  function MaxPolls(timeout: int): nat
  {
    if timeout < INITIAL_WAIT then 0 else (timeout - INITIAL_WAIT) / POLL_INTERVAL + 1
  }

  /** The loop iterates at most `MaxPolls(timeout)` times, whatever the service answers, and it waits at most 10 seconds past the timeout (never less than the initial 30). */
  lemma PollCountBounded(timeout: int, fetched: nat -> Option<string>)
    ensures PollCount(timeout, fetched) <= MaxPolls(timeout)
    ensures WaitedAfter(PollCount(timeout, fetched)) <= if timeout < INITIAL_WAIT then INITIAL_WAIT else timeout + POLL_INTERVAL
  {
    var n := PollCount(timeout, fetched);
    if n > 0 {
      assert KeepsWaiting(timeout, fetched(n - 1), WaitedAfter(n - 1));
      assert POLL_INTERVAL * (n - 1) <= timeout - INITIAL_WAIT;
      assert n - 1 <= (timeout - INITIAL_WAIT) / POLL_INTERVAL;
    }
  }

  /** If the first fetch is not "In Progress" the loop body never runs: only the initial 30 seconds are waited. */
  lemma SettledAtOnce(timeout: int, fetched: nat -> Option<string>)
    requires fetched(0) != Some(IN_PROGRESS)
    ensures PollCount(timeout, fetched) == 0
    ensures WaitedAfter(PollCount(timeout, fetched)) == INITIAL_WAIT
  {
  }

  /** A status that stays "In Progress" is given up on exactly when the time waited first exceeds the timeout. */
  lemma PendingUntilTimeout(timeout: int, fetched: nat -> Option<string>)
    requires forall j: nat :: fetched(j) == Some(IN_PROGRESS)
    ensures PollCount(timeout, fetched) == MaxPolls(timeout)
    ensures WaitedAfter(PollCount(timeout, fetched)) > timeout
  {
    var n := PollCount(timeout, fetched);
    PollCountBounded(timeout, fetched);
    assert WaitedAfter(n) > timeout by {
      assert fetched(n) == Some(IN_PROGRESS);
    }
  }

  /** The status returned by the k-th status fetch, given the k-th reply of the service. */
  function StatusFetch(accessToken: string, tenantId: string, serviceInstanceId: string,
                       details: nat -> DetailsReply): nat -> Option<string>
  {
    (k: nat) => GetServiceInstanceStatus(Some(accessToken), Some(tenantId), serviceInstanceId, details(k)).value
  }

  /** `n` copies of the same request. */
  function Repeat(c: Call, n: nat): (r: seq<Call>)
    ensures |r| == n && forall i :: 0 <= i < n ==> r[i] == c
  {
    seq(n, _ => c)
  }

  /**
   * The first status fetch, the 30-second sleep and the `while` loop.
   * `details(k)` is the service's reply to the k-th GET of the instance.
   */
  method PollUntilSettled(timeout: int, accessToken: string, tenantId: string, serviceInstanceId: string,
                          details: nat -> DetailsReply)
    returns (status: Option<string>, timeWaited: int, sent: seq<Call>)
    ensures var fetched := StatusFetch(accessToken, tenantId, serviceInstanceId, details);
      var n := PollCount(timeout, fetched);
      && status == fetched(n)
      && timeWaited == WaitedAfter(n)
      && sent == Repeat(GetServiceInstance(Bearer(accessToken), serviceInstanceId, tenantId), n + 1)
    ensures status != Some(IN_PROGRESS) || timeWaited > timeout
  {
    ghost var fetched := StatusFetch(accessToken, tenantId, serviceInstanceId, details);
    var request := GetServiceInstance(Bearer(accessToken), serviceInstanceId, tenantId);
    var fetches := 0;
    var first := GetServiceInstanceStatus(Some(accessToken), Some(tenantId), serviceInstanceId, details(fetches));
    status, sent := first.value, first.sent;
    timeWaited := INITIAL_WAIT;
    while status == Some(IN_PROGRESS) && timeWaited <= timeout
      invariant timeWaited == WaitedAfter(fetches)
      invariant status == fetched(fetches)
      invariant sent == Repeat(request, fetches + 1)
      invariant PollCountFrom(timeout, fetched, fetches) == PollCount(timeout, fetched)
      decreases timeout - timeWaited
    {
      timeWaited := timeWaited + POLL_INTERVAL;
      fetches := fetches + 1;
      var next := GetServiceInstanceStatus(Some(accessToken), Some(tenantId), serviceInstanceId, details(fetches));
      status, sent := next.value, sent + next.sent;
    }
  }
}
