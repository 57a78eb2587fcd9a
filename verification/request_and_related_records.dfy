/** A request bundled with its queue and users. Every builder yields a new bundle that
    differs from the old one in exactly one component. */
module RequestBundles {
  import opened Results
  import opened Inventory
  import Requests
  import opened RequestQueues

  /** A user record; only its identity matters here. */
  datatype User = User(id: Option<string>, properties: map<string, string>)

  datatype RequestAndRelatedRecords = RequestAndRelatedRecords(
    request: Requests.Request,
    requestQueue: Option<RequestQueue>,
    requestingUser: Option<User>,
    proxyUser: Option<User>)

  /** The public one-argument constructor: nothing but the request is known yet. */
  function FromRequest(request: Requests.Request): (b: RequestAndRelatedRecords)
    ensures b.request == request
    ensures b.requestQueue.None? && b.requestingUser.None? && b.proxyUser.None?
  {
    RequestAndRelatedRecords(request, None, None, None)
  }

  /** The inventory records are held by the request, not by the bundle. */
  function GetInventoryRecords(b: RequestAndRelatedRecords): (i: Option<InventoryRecords>)
    ensures i == Requests.GetItem(b.request)
  {
    b.request.item
  }

  function GetUserId(b: RequestAndRelatedRecords): (id: Option<string>)
    ensures id == b.request.representation.requesterId
  {
    Requests.GetUserId(b.request)
  }

  function GetProxyUserId(b: RequestAndRelatedRecords): (id: Option<string>)
    ensures id == b.request.representation.proxyUserId
  {
    Requests.GetProxyUserId(b.request)
  }

  /** Installs a new request, which inherits the item of the request it replaces. */
  function WithRequest(b: RequestAndRelatedRecords, newRequest: Requests.Request): (r: RequestAndRelatedRecords)
    ensures Requests.AsJson(r.request) == Requests.AsJson(newRequest)
    ensures GetInventoryRecords(r) == GetInventoryRecords(b)
    ensures r.requestQueue == b.requestQueue
    ensures r.requestingUser == b.requestingUser && r.proxyUser == b.proxyUser
  {
    var installed := Requests.SetItem(newRequest, Requests.GetItem(b.request));
    RequestAndRelatedRecords(installed, b.requestQueue, b.requestingUser, b.proxyUser)
  }

  function WithRequestQueue(b: RequestAndRelatedRecords, newQueue: Option<RequestQueue>): (r: RequestAndRelatedRecords)
    ensures r.requestQueue == newQueue
    ensures r.request == b.request
    ensures r.requestingUser == b.requestingUser && r.proxyUser == b.proxyUser
  {
    b.(requestQueue := newQueue)
  }

  function WithInventoryRecords(b: RequestAndRelatedRecords, newItem: Option<InventoryRecords>): (r: RequestAndRelatedRecords)
    ensures GetInventoryRecords(r) == newItem
    ensures Requests.AsJson(r.request) == Requests.AsJson(b.request)
    ensures r.requestQueue == b.requestQueue
    ensures r.requestingUser == b.requestingUser && r.proxyUser == b.proxyUser
  {
    b.(request := Requests.SetItem(b.request, newItem))
  }

  function WithRequestingUser(b: RequestAndRelatedRecords, newUser: Option<User>): (r: RequestAndRelatedRecords)
    ensures r.requestingUser == newUser
    ensures r.request == b.request && r.requestQueue == b.requestQueue && r.proxyUser == b.proxyUser
  {
    b.(requestingUser := newUser)
  }

  function WithProxyUser(b: RequestAndRelatedRecords, newProxyUser: Option<User>): (r: RequestAndRelatedRecords)
    ensures r.proxyUser == newProxyUser
    ensures r.request == b.request && r.requestQueue == b.requestQueue && r.requestingUser == b.requestingUser
  {
    b.(proxyUser := newProxyUser)
  }

  /** Replaces the item inside the inventory records, which must be present. */
  function WithItem(b: RequestAndRelatedRecords, updated: ItemRecord): (r: RequestAndRelatedRecords)
    requires GetInventoryRecords(b).Some?
    ensures GetInventoryRecords(r).Some? && GetInventoryRecords(r).value.item == updated
    ensures GetInventoryRecords(r).value.holdingsRecordId == GetInventoryRecords(b).value.holdingsRecordId
    ensures GetInventoryRecords(r).value.instanceId == GetInventoryRecords(b).value.instanceId
    ensures Requests.AsJson(r.request) == Requests.AsJson(b.request)
    ensures r.requestQueue == b.requestQueue
    ensures r.requestingUser == b.requestingUser && r.proxyUser == b.proxyUser
  {
    WithInventoryRecords(b, Some(ReplaceItem(GetInventoryRecords(b).value, updated)))
  }

  /** The two user builders touch disjoint components, so their order does not matter. */
  lemma UserBuildersCommute(b: RequestAndRelatedRecords, user: Option<User>, proxy: Option<User>)
    ensures WithProxyUser(WithRequestingUser(b, user), proxy) == WithRequestingUser(WithProxyUser(b, proxy), user)
  {
  }

  /** Replacing the request keeps the user ids derived from it in step with the new request. */
  lemma WithRequestDerivesUserIds(b: RequestAndRelatedRecords, newRequest: Requests.Request)
    ensures GetUserId(WithRequest(b, newRequest)) == Requests.GetUserId(newRequest)
    ensures GetProxyUserId(WithRequest(b, newRequest)) == Requests.GetProxyUserId(newRequest)
  {
  }
}
