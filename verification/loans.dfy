/** The loan-side bundle the coordinator reads: the loan, the item and the request queue. */
module Loans {
  import opened Results
  import opened Inventory
  import opened RequestQueues

  /** Loan status names. */
  const LOAN_OPEN := "Open"
  const LOAN_CLOSED := "Closed"

  /** The loan's "status" object, whose "name" may itself be absent. */
  datatype StatusObject = StatusObject(name: Option<string>)

  datatype Loan = Loan(id: Option<string>, status: Option<StatusObject>, properties: map<string, string>)

  datatype LoanAndRelatedRecords = LoanAndRelatedRecords(
    loan: Loan,
    inventoryRecords: Option<InventoryRecords>,
    requestQueue: Option<RequestQueue>)

  /** Replaces the item inside the inventory records, which must be present. */
  function WithItem(b: LoanAndRelatedRecords, updated: ItemRecord): (r: LoanAndRelatedRecords)
    requires b.inventoryRecords.Some?
    ensures r.inventoryRecords.Some? && r.inventoryRecords.value.item == updated
    ensures r.inventoryRecords.value.holdingsRecordId == b.inventoryRecords.value.holdingsRecordId
    ensures r.inventoryRecords.value.instanceId == b.inventoryRecords.value.instanceId
    ensures r.loan == b.loan && r.requestQueue == b.requestQueue
  {
    b.(inventoryRecords := Some(ReplaceItem(b.inventoryRecords.value, updated)))
  }
}
