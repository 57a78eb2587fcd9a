/** Item records as the coordinator sees them: only the status is ever written. */
module Inventory {
  import opened Results

  /** Canonical item status names. */
  const AVAILABLE := "Available"
  const CHECKED_OUT := "Checked out"

  /** An item record: its id, its status name, and every other property as opaque text. */
  datatype ItemRecord = ItemRecord(id: Option<string>, status: Option<string>, properties: map<string, string>)

  /** The inventory records fetched for a request or loan: the item and the records above it. */
  datatype InventoryRecords = InventoryRecords(item: ItemRecord, holdingsRecordId: Option<string>, instanceId: Option<string>)

  /** Replaces the item of an inventory bundle, keeping the holdings and instance. */
  function ReplaceItem(inventory: InventoryRecords, updated: ItemRecord): (r: InventoryRecords)
    ensures r.item == updated
    ensures r.holdingsRecordId == inventory.holdingsRecordId && r.instanceId == inventory.instanceId
  {
    inventory.(item := updated)
  }
}
