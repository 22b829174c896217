/** The status fetcher (`fetch_psn_status`): GET the status page, retrying
    with a fixed delay up to a bounded number of attempts. */
module Fetcher {
  import opened Values

  /** The outcome of one GET: a response with its status code and parsed
      body, or a raised `requests.RequestException` (a network error, a
      timeout, or a body that is not JSON). */
  datatype Attempt = Response(status: int, body: Json) | NetworkError

  /** The outcome of each attempt, numbered from 0. */
  type World = nat -> Attempt

  predicate Succeeds(a: Attempt) {
    a.Response? && a.status == 200
  }

  /** The body the fetch returns when attempts `i` and later are still to
      be made: the first 200 response before `maxRetries`, or None. */
  function Poll(world: World, maxRetries: int, i: nat): (r: Option<Json>)
    decreases if i < maxRetries then maxRetries - i else 0
    ensures r.Some? ==> i < maxRetries
  {
    if maxRetries <= i then None
    else if Succeeds(world(i)) then Some(world(i).body)
    else Poll(world, maxRetries, i + 1)
  }

  /** `fetch_psn_status`: `attempts` GETs are made and `sleeps` times the
      fetch sleeps for the retry delay, once after every failed attempt,
      the last one included. */
  method Fetch(world: World, maxRetries: int) returns (r: Option<Json>, attempts: nat, sleeps: nat)
    ensures r == Poll(world, maxRetries, 0)
    ensures attempts <= (if maxRetries > 0 then maxRetries else 0)
    ensures forall i :: 0 <= i < sleeps ==> !Succeeds(world(i))
    ensures r.Some? ==> 0 < attempts && Succeeds(world(attempts - 1)) &&
                        r.value == world(attempts - 1).body && sleeps == attempts - 1
    ensures r.None? ==> attempts == sleeps == (if maxRetries > 0 then maxRetries else 0)
  {
    var retries := 0;
    attempts, sleeps := 0, 0;
    while retries < maxRetries
      invariant retries == attempts == sleeps
      invariant retries <= (if maxRetries > 0 then maxRetries else 0)
      invariant forall i :: 0 <= i < sleeps ==> !Succeeds(world(i))
      invariant Poll(world, maxRetries, 0) == Poll(world, maxRetries, retries)
      decreases maxRetries - retries
    {
      var outcome := world(attempts);
      attempts := attempts + 1;
      match outcome {
        case Response(status, body) =>
          if status != 200 {
            retries := retries + 1;
            sleeps := sleeps + 1;
            continue;
          }
          return Some(body), attempts, sleeps;
        case NetworkError =>
          retries := retries + 1;
          sleeps := sleeps + 1;
      }
    }
    r := None;
  }

  /** The fetch returns the body of the first 200 response, provided it
      comes before the attempts run out. */
  lemma {:induction false} PollFindsFirstSuccess(world: World, maxRetries: int, i: nat, k: nat)
    requires i <= k < maxRetries && Succeeds(world(k))
    requires forall j :: i <= j < k ==> !Succeeds(world(j))
    decreases k - i
    ensures Poll(world, maxRetries, i) == Some(world(k).body)
  {
    if i < k {
      PollFindsFirstSuccess(world, maxRetries, i + 1, k);
    }
  }

  /** When every allowed attempt fails, the fetch returns None; so does a
      fetch allowed no attempts at all. */
  lemma {:induction false} PollGivesUp(world: World, maxRetries: int, i: nat)
    requires forall j :: i <= j < maxRetries ==> !Succeeds(world(j))
    decreases if i < maxRetries then maxRetries - i else 0
    ensures Poll(world, maxRetries, i) == None
  {
    if i < maxRetries {
      PollGivesUp(world, maxRetries, i + 1);
    }
  }

  /** A body is returned only from a 200 response among the allowed
      attempts, preceded by failures only. */
  lemma {:induction false} PollOnlyFromSuccess(world: World, maxRetries: int, i: nat)
    requires Poll(world, maxRetries, i).Some?
    decreases if i < maxRetries then maxRetries - i else 0
    ensures exists k :: i <= k < maxRetries && Succeeds(world(k)) &&
                        Poll(world, maxRetries, i).value == world(k).body &&
                        forall j :: i <= j < k ==> !Succeeds(world(j))
  {
    if !Succeeds(world(i)) {
      PollOnlyFromSuccess(world, maxRetries, i + 1);
      var k :| i + 1 <= k < maxRetries && Succeeds(world(k)) &&
               Poll(world, maxRetries, i + 1).value == world(k).body &&
               forall j :: i + 1 <= j < k ==> !Succeeds(world(j));
      assert forall j :: i <= j < k ==> !Succeeds(world(j));
    }
  }
}
