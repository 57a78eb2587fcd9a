/** The queue of requests for one item, in position order. Only open requests take
    part in decisions; the head is the first open request by position. */
module RequestQueues {
  import opened Results
  import opened Requests

  datatype RequestQueue = RequestQueue(requests: seq<Request>)

  /** Position `i` holds the head: an open request with no open request before it. */
  ghost predicate IsHeadAt(q: RequestQueue, i: int)
  {
    && 0 <= i < |q.requests|
    && IsOpen(q.requests[i])
    && forall j :: 0 <= j < i ==> !IsOpen(q.requests[j])
  }

  /** The position of the first open request, if any. */
  function FirstOpen(rs: seq<Request>): (k: Option<nat>)
    ensures k.Some? ==> k.value < |rs| && IsOpen(rs[k.value])
    ensures k.Some? ==> forall j :: 0 <= j < k.value ==> !IsOpen(rs[j])
    ensures k.None? ==> forall j :: 0 <= j < |rs| ==> !IsOpen(rs[j])
  {
    if |rs| == 0 then None
    else if IsOpen(rs[0]) then Some(0)
    else
      match FirstOpen(rs[1..])
      case None => None
      case Some(k) => Some(k + 1)
  }

  function HasOutstandingRequests(q: RequestQueue): (b: bool)
    ensures b <==> exists i :: 0 <= i < |q.requests| && IsOpen(q.requests[i])
    ensures b <==> exists i :: IsHeadAt(q, i)
  {
    var k := FirstOpen(q.requests);
    assert k.Some? ==> IsHeadAt(q, k.value);
    k.Some?
  }

  /** The head of the queue: the earliest open request by position, whatever its type. */
  function HighestPriorityRequest(q: RequestQueue): (h: Request)
    requires HasOutstandingRequests(q)
    ensures IsOpen(h) && h in q.requests
    ensures forall i :: IsHeadAt(q, i) ==> h == q.requests[i]
  {
    var k := FirstOpen(q.requests).value;
    assert IsHeadAt(q, k);
    q.requests[k]
  }

  /** When every queued request is open, as in a queue fetched by open status, the head is
      simply the first request: a hold queued before a recall stays the head. */
  lemma AllOpenHeadIsFirst(q: RequestQueue)
    requires |q.requests| > 0
    requires forall i :: 0 <= i < |q.requests| ==> IsOpen(q.requests[i])
    ensures HasOutstandingRequests(q)
    ensures HighestPriorityRequest(q) == q.requests[0]
  {
  }
}
