/** A circulation request: its stored representation and the item it was fetched with. */
module Requests {
  import opened Results
  import opened Inventory

  /** Request status names that count as open. */
  const OPEN_AWAITING_PICKUP := "Open - Awaiting pickup"
  const OPEN_NOT_YET_FILLED := "Open - Not yet filled"

  /** The fulfilment preference under which a request can be fulfilled at a hold shelf. */
  const HOLD_SHELF := "Hold Shelf"

  /** The stored request record; any property may be absent. */
  datatype Representation = Representation(
    id: Option<string>,
    itemId: Option<string>,
    requesterId: Option<string>,
    proxyUserId: Option<string>,
    requestType: Option<string>,
    fulfilmentPreference: Option<string>,
    status: Option<string>)

  datatype Request = Request(representation: Representation, item: Option<InventoryRecords>)

  function GetId(r: Request): Option<string> { r.representation.id }
  function GetItemId(r: Request): Option<string> { r.representation.itemId }
  function GetUserId(r: Request): Option<string> { r.representation.requesterId }
  function GetProxyUserId(r: Request): Option<string> { r.representation.proxyUserId }
  function GetRequestType(r: Request): Option<string> { r.representation.requestType }
  function GetFulfilmentPreference(r: Request): Option<string> { r.representation.fulfilmentPreference }
  function GetStatus(r: Request): Option<string> { r.representation.status }
  function GetItem(r: Request): Option<InventoryRecords> { r.item }

  /** Every property the getters expose, in one tuple, to state "nothing else changes". */
  function Identity(r: Request): (Option<string>, Option<string>, Option<string>, Option<string>, Option<string>, Option<string>)
  {
    (GetId(r), GetItemId(r), GetUserId(r), GetProxyUserId(r), GetRequestType(r), GetFulfilmentPreference(r))
  }

  /** A copy of the representation: it agrees with every getter. */
  function AsJson(r: Request): (j: Representation)
    ensures j.id == GetId(r) && j.itemId == GetItemId(r)
    ensures j.requesterId == GetUserId(r) && j.proxyUserId == GetProxyUserId(r)
    ensures j.requestType == GetRequestType(r) && j.fulfilmentPreference == GetFulfilmentPreference(r)
    ensures j.status == GetStatus(r)
  {
    r.representation
  }

  function IsFulfillable(r: Request): (b: bool)
    ensures b <==> GetFulfilmentPreference(r) == Some(HOLD_SHELF)
  {
    match GetFulfilmentPreference(r)
    case Some(preference) => preference == HOLD_SHELF
    case None => false
  }

  /** Open means one of the two open status names; an absent status is not open. */
  function IsOpen(r: Request): (b: bool)
    ensures b <==> GetStatus(r) in {Some(OPEN_AWAITING_PICKUP), Some(OPEN_NOT_YET_FILLED)}
  {
    match GetStatus(r)
    case Some(status) => status == OPEN_AWAITING_PICKUP || status == OPEN_NOT_YET_FILLED
    case None => false
  }

  function ChangeStatus(r: Request, status: string): (r': Request)
    ensures GetStatus(r') == Some(status)
    ensures Identity(r') == Identity(r)
    ensures GetItem(r') == GetItem(r)
  {
    r.(representation := r.representation.(status := Some(status)))
  }

  function SetItem(r: Request, item: Option<InventoryRecords>): (r': Request)
    ensures GetItem(r') == item
    ensures AsJson(r') == AsJson(r)
  {
    r.(item := item)
  }

  /** After a status change, openness is decided by the new status alone. */
  lemma ChangeStatusDecidesOpenness(r: Request, status: string)
    ensures IsOpen(ChangeStatus(r, status)) <==> (status == OPEN_AWAITING_PICKUP || status == OPEN_NOT_YET_FILLED)
  {
  }

  /** A status change never alters whether a request is fulfillable. */
  lemma ChangeStatusKeepsFulfillable(r: Request, status: string)
    ensures IsFulfillable(ChangeStatus(r, status)) == IsFulfillable(r)
  {
  }
}
