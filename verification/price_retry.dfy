/** The retry loop around each price GET: at most three attempts, stopping
    at the first response with status 200. */
module PriceRetry {
  import opened Wrappers
  import opened PriceRows

  /** What `response.json()` gives: an array of items, or anything else
      (not JSON, or JSON that is not an array of objects), from which
      nothing is saved: the processing either raises and is caught or finds
      no items. */
  datatype Body = JsonArray(items: seq<Item>) | NotJsonArray

  /** One GET: a response with its status code, or an exception raised by
      `requests.get`. */
  datatype Outcome = Response(status: int, body: Body) | Raised

  /** The network, as the outcome of the `attempt`-th GET of a URL. */
  type Server = (string, nat) -> Outcome

  const MaxAttempts: nat := 3

  predicate IsOk(o: Outcome)
  {
    o.Response? && o.status == 200
  }

  /** How many GETs were made and the body of the 200 response, if any. */
  datatype Fetched = Fetched(attempts: nat, body: Option<Body>)

  /** The attempts from `from` on: a 200 ends them, whatever its body; a
      different status or an exception moves on to the next attempt, and
      after the last one the request is given up without raising. */
  function Retry(server: Server, url: string, from: nat): (r: Fetched)
    requires from <= MaxAttempts
    ensures from <= r.attempts <= MaxAttempts
    ensures from < MaxAttempts ==> from < r.attempts
    ensures forall k :: from <= k < r.attempts - 1 ==> !IsOk(server(url, k))
    ensures r.body.Some? <==> from < r.attempts && IsOk(server(url, r.attempts - 1))
    ensures r.body.Some? ==> r.body.value == server(url, r.attempts - 1).body
    ensures r.body.None? ==> r.attempts == MaxAttempts && forall k :: from <= k < MaxAttempts ==> !IsOk(server(url, k))
    decreases MaxAttempts - from
  {
    if from == MaxAttempts then Fetched(MaxAttempts, None)
    else if IsOk(server(url, from)) then Fetched(from + 1, Some(server(url, from).body))
    else Retry(server, url, from + 1)
  }

  /** `for retry in range(num_retries)` with its `break` on status 200. */
  method GetWithRetries(server: Server, url: string) returns (attempts: nat, body: Option<Body>)
    ensures Fetched(attempts, body) == Retry(server, url, 0)
  {
    attempts, body := 0, None;
    var retry := 0;
    while retry < MaxAttempts
      invariant 0 <= retry <= MaxAttempts
      invariant attempts == retry && body == None
      invariant Retry(server, url, retry) == Retry(server, url, 0)
    {
      var outcome := server(url, retry);
      attempts := retry + 1;
      if outcome.Response? && outcome.status == 200 {
        body := Some(outcome.body);
        return;
      }
      retry := retry + 1;
    }
  }
}
