# Item-status coordinator of mod-circulation, modelled in Dafny

This project models the part of the FOLIO circulation module that keeps an item's
status in step with its loans and requests, together with the small domain records
around it:

- `UpdateItem` (update_item.dfy): the three entry points `OnCheckOut`, `OnLoanUpdate`
  and `OnRequestCreation`. Each reads a loan or request bundle and its request queue,
  derives the status the item should have, and then either skips (returns the bundle
  unchanged), writes (sets the status and persists the item) or fails. The outcome is
  the tri-state `Outcome` = `Written` | `Skipped` | `Failed`.
  - A closed loan skips at check-out; on a loan update it makes the item Available.
  - With outstanding requests the type of the queue's head decides the status. The head
    is the first open request by position, not the most severe type.
  - Otherwise the item is Checked out, or, on request creation, takes the status of the
    new request's own type.
  - A write happens only when the target differs from the current status. A storage
    answer other than 204 gives the server error "Failed to update item".
  - A missing inventory bundle or loan status object becomes a server error naming the
    cause (`Fault`), never an escaping exception. So do a missing request queue and an
    unconfigured request type, but only on the paths that read them: a closed loan never
    reads the queue.
  - A loan status object whose name is null counts as not closed. The
    `MissingLoanStatusName` fault of `ItemStatusFrom` is therefore never reached through
    an entry point (`LoanStatusNameNeverFaults`).
  - Other nulls the Java could meet are listed under "Left out".
- `UnknownDueDates` (unknown_due_date_strategy.dfy): the due-date strategy for an
  unrecognised loan-policy profile. It always fails, with a check-out or a renewal
  message that embeds the profile id as Java's `String.format` renders it.
- `Requests` (request.dfy): a request's representation, `IsOpen`, `IsFulfillable`,
  `ChangeStatus`, `SetItem` and `AsJson`.
- `RequestBundles` (request_and_related_records.dfy): `RequestAndRelatedRecords` and its
  `With*` builders, each of which replaces exactly one component.
- Support modules: `Results` (option, result, failure kinds), `Inventory` (item
  records), `RequestQueues` (the queue view), `Loans` (the loan bundle), `Formatting`
  (a single `%s` conversion of `String.format`).

Injected collaborators. The model passes in what the coordinator gets from code that
is not part of this model:
- `RequestType.from(..).toItemStatus()` is a `map<string, string>` from request-type
  name to item status.
- The storage PUT is the status code it answers with.
- The request queue is a position-ordered `seq` of requests. Its head is the first open
  request, and it has outstanding requests iff some request is open.

Null handling follows the Java code: every JSON property is an `Option`. A property
that must be dereferenced and is absent becomes the `Fault` the entry point's
`catch` turns into a server error.

Constant values whose defining classes are not part of this model (`ItemStatus`,
`RequestStatus`, `RequestFulfilmentPreference`) use the values the system stores:
"Available", "Checked out", "Open - Awaiting pickup", "Open - Not yet filled" and
"Hold Shelf".

## Model

| member | source | states |
|---|---|---|
| UpdateItem.OnCheckOut | src/main/java/org/folio/circulation/domain/UpdateItem.java:27-57 | Missing inventory records or loan status fail as server errors. A closed loan returns the bundle unchanged, whatever the queue or storage. An open loan with no outstanding requests settles on Checked out. With outstanding requests it settles on the status mapped from the type of the request at the head position. An unmapped type or a missing queue is a server error. Failures are always server errors. |
| UpdateItem.OnLoanUpdate | src/main/java/org/folio/circulation/domain/UpdateItem.java:59-91 | A closed loan settles the item on Available. An open loan follows the same queue rule as check-out: the head's mapped status, or Checked out when nothing is outstanding. The missing-record cases are server errors. |
| UpdateItem.OnRequestCreation | src/main/java/org/folio/circulation/domain/UpdateItem.java:93-118 | With outstanding requests the head's mapped status is the target. With none, the created request's own mapped status is the target. A missing queue, an unmapped type, or missing inventory records (read after the target) give the matching server error. |
| UpdateItem.Settle | src/main/java/org/folio/circulation/domain/UpdateItem.java:142-154 | Skip iff the current status equals the target. Write iff it differs and storage answers 204. The written item has the target status and the same id and other properties. Otherwise it fails with "Failed to update item". |
| UpdateItem.SettleLoanItem | src/main/java/org/folio/circulation/domain/UpdateItem.java:43-50 | A skip returns the loan bundle itself. A write returns the bundle whose item is the old item with only the status replaced. A storage failure is the update failure. |
| UpdateItem.SettleRequestItem | src/main/java/org/folio/circulation/domain/UpdateItem.java:105-111 | The same three-way settlement for a request bundle. |
| UpdateItem.InternalUpdate | src/main/java/org/folio/circulation/domain/UpdateItem.java:120-140 | Succeeds iff the PUT answers 204. It then returns the item with the new status and its id and other properties unchanged. Any other answer gives the server error "Failed to update item". |
| UpdateItem.IsNotSameStatus | src/main/java/org/folio/circulation/domain/UpdateItem.java:149-154 | Null-safe inequality: an absent current status always differs from the target, and a present one differs iff its text differs. |
| UpdateItem.ItemStatusFrom | src/main/java/org/folio/circulation/domain/UpdateItem.java:156-167 | "Open" maps to Checked out and "Closed" to Available. Any other name maps to the empty status. A missing status object or a null name is a fault. |
| UpdateItem.IsClosed | src/main/java/org/folio/circulation/domain/UpdateItem.java:173-175 | Faults exactly when the loan has no status object. Otherwise it is true iff the status name is "Closed"; a null name is not closed. |
| UpdateItem.RequestTypeStatus | src/main/java/org/folio/circulation/domain/UpdateItem.java:40 | Succeeds iff the request's type is present and configured, and then yields the configured status. Otherwise it raises the unmapped-type fault. |
| UpdateItem.ProspectiveStatus | src/main/java/org/folio/circulation/domain/UpdateItem.java:39-41 | A missing queue is a fault. With outstanding requests, the result is the status of the request at the head position, for every position that satisfies the head definition. Otherwise it is the fallback. |
| UpdateItem.CheckOutIsIdempotent | src/main/java/org/folio/circulation/domain/UpdateItem.java:43-50 | Check-out run again on the bundle it returned is a skip that returns that bundle, whatever storage answers. |
| UpdateItem.LoanUpdateIsIdempotent | src/main/java/org/folio/circulation/domain/UpdateItem.java:77-84 | The same idempotence for loan updates. |
| UpdateItem.RequestCreationIsIdempotent | src/main/java/org/folio/circulation/domain/UpdateItem.java:105-111 | The same idempotence for request creation. |
| UpdateItem.LoanStatusNameNeverFaults | src/main/java/org/folio/circulation/domain/UpdateItem.java:66-67 | Neither loan entry point ever fails with the null-status-name fault. `itemStatusFrom` runs only after `isClosed` has seen "Closed", and a null name is not closed. |
| UpdateItem.ClosedLoanNeverReadsQueue | src/main/java/org/folio/circulation/domain/UpdateItem.java:34-37 | For a closed loan, with or without a request queue, check-out skips and a loan update can fail only with the storage failure. |
| UpdateItem.ActiveLoanEntryPointsAgree | src/main/java/org/folio/circulation/domain/UpdateItem.java:66-75 | On a loan that is not closed, check-out and loan update produce the same outcome. |
| RequestQueues.FirstOpen | src/main/java/org/folio/circulation/domain/UpdateItem.java:39-40 | Finds the first open request by position: it is open and nothing before it is open. None means no request is open. |
| RequestQueues.HasOutstandingRequests | src/main/java/org/folio/circulation/domain/UpdateItem.java:39 | True iff some queued request is open, and iff some position satisfies the head definition. |
| RequestQueues.HighestPriorityRequest | src/main/java/org/folio/circulation/domain/UpdateItem.java:40 | An open queued request that equals the request at every head position. Priority is by position, not by type. |
| RequestQueues.AllOpenHeadIsFirst | src/main/java/org/folio/circulation/domain/UpdateItem.java:39-41 | In a queue of open requests the head is the first request, so a hold queued before a recall stays the head. |
| Requests.AsJson | src/main/java/org/folio/circulation/domain/Request.java:18-20 | The copy agrees with every getter, status included. |
| Requests.IsFulfillable | src/main/java/org/folio/circulation/domain/Request.java:22-25 | True iff the fulfilment preference is present and equals "Hold Shelf". |
| Requests.IsOpen | src/main/java/org/folio/circulation/domain/Request.java:27-32 | True iff the status is one of the two open status names. An absent status is not open. |
| Requests.ChangeStatus | src/main/java/org/folio/circulation/domain/Request.java:61-67 | The status then reads back as the given one. The id, item id, requester, proxy, type, fulfilment preference and item are unchanged. |
| Requests.SetItem | src/main/java/org/folio/circulation/domain/Request.java:69-75 | The item then reads back as the given one, and the representation is unchanged. |
| Requests.ChangeStatusDecidesOpenness | src/main/java/org/folio/circulation/domain/Request.java:27-32 | After a status change, the request is open iff the new status is an open status. |
| Requests.ChangeStatusKeepsFulfillable | src/main/java/org/folio/circulation/domain/Request.java:22-25 | A status change never changes fulfillability. |
| RequestBundles.FromRequest | src/main/java/org/folio/circulation/domain/RequestAndRelatedRecords.java:24-26 | Holds the request, with no queue, no requesting user and no proxy user. |
| RequestBundles.WithRequest | src/main/java/org/folio/circulation/domain/RequestAndRelatedRecords.java:32-39 | Installs the new request's representation, which carries the old request's item. The queue and both users are kept. |
| RequestBundles.WithRequestQueue | src/main/java/org/folio/circulation/domain/RequestAndRelatedRecords.java:41-47 | Replaces only the queue, which may be absent; the request and both users are kept. |
| RequestBundles.WithInventoryRecords | src/main/java/org/folio/circulation/domain/RequestAndRelatedRecords.java:49-57 | The inventory records then read back as the given ones. The representation, queue and users are kept. |
| RequestBundles.WithRequestingUser | src/main/java/org/folio/circulation/domain/RequestAndRelatedRecords.java:59-65 | Replaces only the requesting user. |
| RequestBundles.WithProxyUser | src/main/java/org/folio/circulation/domain/RequestAndRelatedRecords.java:67-73 | Replaces only the proxy user. |
| RequestBundles.WithItem | src/main/java/org/folio/circulation/domain/RequestAndRelatedRecords.java:28-30 | Replaces the item inside the inventory records and keeps the holdings, instance, representation, queue and users. |
| RequestBundles.GetInventoryRecords | src/main/java/org/folio/circulation/domain/RequestAndRelatedRecords.java:79-81 | The inventory records are the request's item. |
| RequestBundles.GetUserId | src/main/java/org/folio/circulation/domain/RequestAndRelatedRecords.java:95-98 | Equals the request's requester id. |
| RequestBundles.GetProxyUserId | src/main/java/org/folio/circulation/domain/RequestAndRelatedRecords.java:100-103 | Equals the request's proxy user id. |
| RequestBundles.UserBuildersCommute | src/main/java/org/folio/circulation/domain/RequestAndRelatedRecords.java:59-73 | Setting the requesting user and the proxy user commute. |
| RequestBundles.WithRequestDerivesUserIds | src/main/java/org/folio/circulation/domain/RequestAndRelatedRecords.java:95-103 | After a request is replaced, both user ids come from the new request. |
| Loans.WithItem | src/main/java/org/folio/circulation/domain/UpdateItem.java:44-46 | Replaces the item inside the loan bundle's inventory records. The loan, queue, holdings and instance are kept. |
| Inventory.ReplaceItem | src/main/java/org/folio/circulation/domain/RequestAndRelatedRecords.java:28-30 | Installs the updated item and keeps the holdings and instance. |
| UnknownDueDates.CalculateDueDate | src/main/java/org/folio/circulation/domain/policy/UnknownDueDateStrategy.java:28-36 | Never a date, always a validation failure. Its message is the renewal message in renewal mode and the check-out message otherwise. |
| UnknownDueDates.CheckOutMessage | src/main/java/org/folio/circulation/domain/policy/UnknownDueDateStrategy.java:8-9 | The check-out template with the profile id substituted for its `%s`. |
| UnknownDueDates.RenewalMessage | src/main/java/org/folio/circulation/domain/policy/UnknownDueDateStrategy.java:11-12 | The renewal template with the profile id substituted for its `%s`. |
| UnknownDueDates.OutcomeIgnoresLoanAndDate | src/main/java/org/folio/circulation/domain/policy/UnknownDueDateStrategy.java:29-36 | The result depends only on the profile id and the renewal flag, not on the loan or the system date. |
| UnknownDueDates.MessagesDiffer | src/main/java/org/folio/circulation/domain/policy/UnknownDueDateStrategy.java:8-12 | For the same profile id, the check-out and renewal messages differ. |
| UnknownDueDates.CheckOutMessageNamesProfile | src/main/java/org/folio/circulation/domain/policy/UnknownDueDateStrategy.java:33-34 | Equal check-out messages mean equal rendered profile ids. |
| UnknownDueDates.RenewalMessageNamesProfile | src/main/java/org/folio/circulation/domain/policy/UnknownDueDateStrategy.java:30-31 | Equal renewal messages mean equal rendered profile ids. |
| UnknownDueDates.AbsentProfileReadsAsNull | src/main/java/org/folio/circulation/domain/policy/UnknownDueDateStrategy.java:30-35 | A null profile id gives the same message as the profile id "null". |
| Formatting.FormatOne | src/main/java/org/folio/circulation/domain/policy/UnknownDueDateStrategy.java:30-35 | Its length is the template's, or the template's minus 2 plus the argument's. FormatOneSplices and FormatOneWithoutConversion give its content. |
| Formatting.Render | src/main/java/org/folio/circulation/domain/policy/UnknownDueDateStrategy.java:31 | A present profile id is rendered as itself, and a null one as the text "null". |
| Formatting.FormatOneSplices | src/main/java/org/folio/circulation/domain/policy/UnknownDueDateStrategy.java:31 | Formatting a template whose only `%` starts its `%s` yields the text before it, the argument, then the text after it. |
| Formatting.FormatOneWithoutConversion | src/main/java/org/folio/circulation/domain/policy/UnknownDueDateStrategy.java:34 | A template without `%` is returned unchanged. |

## Left out

- Renewal gating is left out because its implementation is not part of this model. The
  test at src/test/java/api/requests/RequestsAPILoanRenewalTests.java:107-130 expects an
  override renewal to be refused when the head request is a Recall.
- The Rolling and Fixed due-date strategies, `DueDateStrategy.fail`, `RequestQueue`,
  `RequestType`, `ItemStatus` and `LoanAndRelatedRecords` are not part of this model.
  - `fail(message)` is a `ValidationError` carrying the message; any policy details the
    base class adds are not modelled.
  - The queue and the type-to-status table are the injected parameters described above.
  - `LoanAndRelatedRecords` is the three fields the coordinator reads. Its `withItem` is
    taken to replace the item, as `RequestAndRelatedRecords.withItem` does.
- UpdateItem.RequestTypeStatus: an absent or unconfigured request type is modelled as a
  caught exception. How `RequestType.from` treats such a type is not part of this model.
  `RequestType.from` is taken to be total, and only `toItemStatus` is taken to fault.
  So in `onRequestCreation` the new request's own type can only fault when it is used,
  in the branch with nothing outstanding (UpdateItem.java:103). It does not fault at the
  earlier `RequestType.from` call (UpdateItem.java:97).
- `ItemStatus.getStatus` is not part of this model. It is taken to read an item without
  a status as null, so such an item differs from every target and is written.
- `Item.updateItem` is not part of this model. It is taken to replace only the item and
  keep the holdings and instance (Inventory.ReplaceItem).
- Reference aliasing is not modelled, because the model has value semantics.
  - `withInventoryRecords` sets the item on the old bundle's own `Request`, which the old
    bundle still shares.
  - `withRequest` overwrites the item of the `Request` passed in, which the caller still
    holds.
  - `internalUpdate` sets the status on the caller's item before the PUT, even when the
    PUT then fails.
  - `asJson` returns a copy precisely to avoid such sharing.
- Persistence and HTTP are left out because they are I/O: `RequestRepository`, the hold-by-barcode
  resource, and the test fixtures and URL builders. So are the `CompletableFuture`
  chaining, logging and the JSON encoding.
- Some nulls cannot occur in the model, because its types rule them out.
  - A null loan is dereferenced at UpdateItem.java:174 and becomes a server error.
  - A null request becomes a server error at the latest when its item is read
    (UpdateItem.java:105).
  - A null item from `inventoryRecords.getItem()` (UpdateItem.java:31 and 64) becomes a
    server error only where it is used. That is a loan update, a check-out of a loan that
    is not closed, and request creation (UpdateItem.java:105). A check-out on a closed
    loan skips even with a null item (UpdateItem.java:35-36).
  The model also does not represent a loan "status" property that is not an object, which
  would raise a ClassCastException that is caught.
- Exception messages are left out. A caught exception is reduced to the `Fault` naming
  the absent value, not the exception text.
- `String.format` is modelled only for a single `%s` conversion, the only one the two
  templates use.
- `UpdateItem` reads `inventoryRecords` and `requestQueue` as fields. The model reads
  them through the bundle getters.
- The plain getters of `Request` (Request.java:34-63) are the one-line functions
  `Requests.GetId` to `Requests.GetItem`. They carry no contracts of their own; the
  contracts of `AsJson`, `ChangeStatus` and `SetItem` are stated through them.
