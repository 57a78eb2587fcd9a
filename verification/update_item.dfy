/** The item-status coordinator: from a loan or request snapshot and its request queue it
    derives the status the item should have, and either leaves the item alone, writes the
    new status to storage, or fails. Storage is reached only through the status code of the
    PUT it would send, which the caller supplies. */
module UpdateItem {
  import opened Results
  import opened Inventory
  import Requests
  import opened RequestQueues
  import Loans
  import RequestBundles

  /** The status code of a successful item PUT. */
  const NO_CONTENT := 204

  /** The failure reported when storage refuses the item. */
  const UPDATE_FAILED: Failure := ServerError(Reported("Failed to update item"))

  /** What an entry point hands back: the bundle with the item written, the input bundle
      untouched, or a failure. */
  datatype Outcome<+T> = Written(value: T) | Skipped(value: T) | Failed(failure: Failure)

  /** The decision about the item alone. */
  datatype ItemUpdate = Write(item: ItemRecord) | Skip | Fail(failure: Failure)

  /** An exception caught at an entry point becomes a server error. */
  function Crash(fault: Fault): Failure
  {
    ServerError(Thrown(fault))
  }

  /** The loan's status object is present and named "Closed". */
  ghost predicate ClosedLoan(loan: Loans.Loan)
  {
    loan.status == Some(Loans.StatusObject(Some(Loans.LOAN_CLOSED)))
  }

  /** Item and loan status are both readable and the loan is not closed. */
  ghost predicate ActiveLoan(records: Loans.LoanAndRelatedRecords)
  {
    records.inventoryRecords.Some? && records.loan.status.Some? && !ClosedLoan(records.loan)
  }

  function IsClosed(loan: Loans.Loan): (r: Result<bool, Fault>)
    ensures r.Failure? <==> loan.status.None?
    ensures r.Failure? ==> r.error == MissingLoanStatus
    ensures r == Success(true) <==> ClosedLoan(loan)
  {
    match loan.status
    case None => Failure(MissingLoanStatus)
    case Some(status) => Success(status.name == Some(Loans.LOAN_CLOSED))
  }

  /** The item status a loan's own status calls for. */
  function ItemStatusFrom(loan: Loans.Loan): (r: Result<string, Fault>)
    ensures loan.status == Some(Loans.StatusObject(Some(Loans.LOAN_OPEN))) ==> r == Success(CHECKED_OUT)
    ensures ClosedLoan(loan) ==> r == Success(AVAILABLE)
    ensures r.Failure? <==> loan.status.None? || loan.status.value.name.None?
    ensures r.Success? && r.value == "" <==> r.Success? && loan.status.value.name !in {Some(Loans.LOAN_OPEN), Some(Loans.LOAN_CLOSED)}
  {
    match loan.status
    case None => Failure(MissingLoanStatus)
    case Some(status) =>
      match status.name
      case None => Failure(MissingLoanStatusName)
      case Some(name) =>
        if name == Loans.LOAN_OPEN then Success(CHECKED_OUT)
        else if name == Loans.LOAN_CLOSED then Success(AVAILABLE)
        else Success("")
  }

  /** The item status configured for a request's type. */
  function RequestTypeStatus(request: Requests.Request, table: map<string, string>): (r: Result<string, Fault>)
    ensures r.Success? <==> Requests.GetRequestType(request).Some? && Requests.GetRequestType(request).value in table
    ensures r.Success? ==> r.value == table[Requests.GetRequestType(request).value]
    ensures r.Failure? ==> r.error == UnmappedRequestType
  {
    match Requests.GetRequestType(request)
    case Some(requestType) =>
      if requestType in table then Success(table[requestType]) else Failure(UnmappedRequestType)
    case None => Failure(UnmappedRequestType)
  }

  /** With outstanding requests the head's type decides; otherwise `otherwise` does. */
  function ProspectiveStatus(queue: Option<RequestQueue>, table: map<string, string>, otherwise: Result<string, Fault>): (r: Result<string, Fault>)
    ensures queue.None? ==> r == Failure(MissingRequestQueue)
    ensures queue.Some? && !HasOutstandingRequests(queue.value) ==> r == otherwise
    ensures forall i :: queue.Some? && IsHeadAt(queue.value, i) ==> r == RequestTypeStatus(queue.value.requests[i], table)
  {
    match queue
    case None => Failure(MissingRequestQueue)
    case Some(q) =>
      if HasOutstandingRequests(q) then RequestTypeStatus(HighestPriorityRequest(q), table) else otherwise
  }

  /** Sets the item's status and sends it to storage, which answers with `putCode`. */
  function InternalUpdate(item: ItemRecord, newStatus: string, putCode: int): (r: Result<ItemRecord, Failure>)
    ensures r.Success? <==> putCode == NO_CONTENT
    ensures r.Success? ==> r.value.status == Some(newStatus)
    ensures r.Success? ==> r.value.id == item.id && r.value.properties == item.properties
    ensures r.Failure? ==> r.error == UPDATE_FAILED
  {
    var updated := item.(status := Some(newStatus));
    if putCode == NO_CONTENT then Success(updated) else Failure(UPDATE_FAILED)
  }

  /** Null-safe string inequality: an absent current status differs from every target. */
  function IsNotSameStatus(current: Option<string>, prospective: string): (b: bool)
    ensures current.None? ==> b
    ensures current.Some? ==> (b <==> current.value != prospective)
  {
    current != Some(prospective)
  }

  /** Brings `item` to `target`: a write only when the status differs. */
  function Settle(item: ItemRecord, target: string, putCode: int): (u: ItemUpdate)
    ensures u.Skip? <==> item.status == Some(target)
    ensures u.Write? <==> item.status != Some(target) && putCode == NO_CONTENT
    ensures u.Write? ==> u.item.status == Some(target)
    ensures u.Write? ==> u.item.id == item.id && u.item.properties == item.properties
    ensures u.Fail? ==> u.failure == UPDATE_FAILED
  {
    if IsNotSameStatus(item.status, target) then
      match InternalUpdate(item, target, putCode)
      case Success(updated) => Write(updated)
      case Failure(failure) => Fail(failure)
    else
      Skip
  }

  /** What settling a loan bundle's item on `target` must produce. */
  ghost predicate LoanSettled(r: Outcome<Loans.LoanAndRelatedRecords>, records: Loans.LoanAndRelatedRecords, target: string, putCode: int)
    requires records.inventoryRecords.Some?
  {
    var item := records.inventoryRecords.value.item;
    if item.status == Some(target) then r == Skipped(records)
    else if putCode == NO_CONTENT then r == Written(Loans.WithItem(records, item.(status := Some(target))))
    else r == Failed(UPDATE_FAILED)
  }

  /** As LoanSettled, for a target that may itself have failed to be computed. */
  ghost predicate LoanAimed(r: Outcome<Loans.LoanAndRelatedRecords>, records: Loans.LoanAndRelatedRecords, target: Result<string, Fault>, putCode: int)
    requires records.inventoryRecords.Some?
  {
    match target
    case Failure(fault) => r == Failed(Crash(fault))
    case Success(status) => LoanSettled(r, records, status, putCode)
  }

  /** What settling a request bundle's item on `target` must produce. */
  ghost predicate RequestSettled(r: Outcome<RequestBundles.RequestAndRelatedRecords>, records: RequestBundles.RequestAndRelatedRecords, target: string, putCode: int)
    requires RequestBundles.GetInventoryRecords(records).Some?
  {
    var item := RequestBundles.GetInventoryRecords(records).value.item;
    if item.status == Some(target) then r == Skipped(records)
    else if putCode == NO_CONTENT then r == Written(RequestBundles.WithItem(records, item.(status := Some(target))))
    else r == Failed(UPDATE_FAILED)
  }

  /** As RequestSettled, for a target that may itself have failed to be computed; the
      inventory records are read only once the target is known. */
  ghost predicate RequestAimed(r: Outcome<RequestBundles.RequestAndRelatedRecords>, records: RequestBundles.RequestAndRelatedRecords, target: Result<string, Fault>, putCode: int)
  {
    match target
    case Failure(fault) => r == Failed(Crash(fault))
    case Success(status) =>
      if RequestBundles.GetInventoryRecords(records).None? then r == Failed(Crash(MissingInventoryRecords))
      else RequestSettled(r, records, status, putCode)
  }

  function SettleLoanItem(records: Loans.LoanAndRelatedRecords, target: string, putCode: int): (r: Outcome<Loans.LoanAndRelatedRecords>)
    requires records.inventoryRecords.Some?
    ensures LoanSettled(r, records, target, putCode)
  {
    match Settle(records.inventoryRecords.value.item, target, putCode)
    case Write(updated) => Written(Loans.WithItem(records, updated))
    case Skip => Skipped(records)
    case Fail(failure) => Failed(failure)
  }

  function SettleRequestItem(records: RequestBundles.RequestAndRelatedRecords, target: string, putCode: int): (r: Outcome<RequestBundles.RequestAndRelatedRecords>)
    requires RequestBundles.GetInventoryRecords(records).Some?
    ensures RequestSettled(r, records, target, putCode)
  {
    match Settle(RequestBundles.GetInventoryRecords(records).value.item, target, putCode)
    case Write(updated) => Written(RequestBundles.WithItem(records, updated))
    case Skip => Skipped(records)
    case Fail(failure) => Failed(failure)
  }

  /** Check-out: a loan created already closed leaves the item alone; otherwise the item is
      checked out, or held for the head of the queue when there are outstanding requests. */
  function OnCheckOut(records: Loans.LoanAndRelatedRecords, table: map<string, string>, putCode: int): (r: Outcome<Loans.LoanAndRelatedRecords>)
    ensures records.inventoryRecords.None? ==> r == Failed(Crash(MissingInventoryRecords))
    ensures records.inventoryRecords.Some? && records.loan.status.None? ==> r == Failed(Crash(MissingLoanStatus))
    ensures records.inventoryRecords.Some? && ClosedLoan(records.loan) ==> r == Skipped(records)
    ensures ActiveLoan(records) && records.requestQueue.None? ==> r == Failed(Crash(MissingRequestQueue))
    ensures ActiveLoan(records) && records.requestQueue.Some? && !HasOutstandingRequests(records.requestQueue.value)
      ==> LoanSettled(r, records, CHECKED_OUT, putCode)
    ensures forall i :: (ActiveLoan(records) && records.requestQueue.Some? && IsHeadAt(records.requestQueue.value, i)
      ==> LoanAimed(r, records, RequestTypeStatus(records.requestQueue.value.requests[i], table), putCode))
    ensures r.Failed? ==> r.failure.ServerError?
  {
    match records.inventoryRecords
    case None => Failed(Crash(MissingInventoryRecords))
    case Some(_) =>
      match IsClosed(records.loan)
      case Failure(fault) => Failed(Crash(fault))
      case Success(closed) =>
        if closed then Skipped(records)
        else
          match ProspectiveStatus(records.requestQueue, table, Success(CHECKED_OUT))
          case Failure(fault) => Failed(Crash(fault))
          case Success(target) => SettleLoanItem(records, target, putCode)
  }

  /** Loan update: a closed loan makes the item available; an open one follows the same
      queue rule as check-out. */
  function OnLoanUpdate(records: Loans.LoanAndRelatedRecords, table: map<string, string>, putCode: int): (r: Outcome<Loans.LoanAndRelatedRecords>)
    ensures records.inventoryRecords.None? ==> r == Failed(Crash(MissingInventoryRecords))
    ensures records.inventoryRecords.Some? && records.loan.status.None? ==> r == Failed(Crash(MissingLoanStatus))
    ensures records.inventoryRecords.Some? && ClosedLoan(records.loan) ==> LoanSettled(r, records, AVAILABLE, putCode)
    ensures ActiveLoan(records) && records.requestQueue.None? ==> r == Failed(Crash(MissingRequestQueue))
    ensures ActiveLoan(records) && records.requestQueue.Some? && !HasOutstandingRequests(records.requestQueue.value)
      ==> LoanSettled(r, records, CHECKED_OUT, putCode)
    ensures forall i :: (ActiveLoan(records) && records.requestQueue.Some? && IsHeadAt(records.requestQueue.value, i)
      ==> LoanAimed(r, records, RequestTypeStatus(records.requestQueue.value.requests[i], table), putCode))
    ensures r.Failed? ==> r.failure.ServerError?
  {
    match records.inventoryRecords
    case None => Failed(Crash(MissingInventoryRecords))
    case Some(_) =>
      var prospective :=
        match IsClosed(records.loan)
        case Failure(fault) => Failure(fault)
        case Success(closed) =>
          if closed then ItemStatusFrom(records.loan)
          else ProspectiveStatus(records.requestQueue, table, Success(CHECKED_OUT));
      match prospective
      case Failure(fault) => Failed(Crash(fault))
      case Success(target) => SettleLoanItem(records, target, putCode)
  }

  /** Request creation: the head of the queue decides when there are outstanding requests,
      otherwise the new request's own type does. */
  function OnRequestCreation(records: RequestBundles.RequestAndRelatedRecords, table: map<string, string>, putCode: int): (r: Outcome<RequestBundles.RequestAndRelatedRecords>)
    ensures records.requestQueue.None? ==> r == Failed(Crash(MissingRequestQueue))
    ensures records.requestQueue.Some? && !HasOutstandingRequests(records.requestQueue.value)
      ==> RequestAimed(r, records, RequestTypeStatus(records.request, table), putCode)
    ensures forall i :: (records.requestQueue.Some? && IsHeadAt(records.requestQueue.value, i)
      ==> RequestAimed(r, records, RequestTypeStatus(records.requestQueue.value.requests[i], table), putCode))
    ensures r.Failed? ==> r.failure.ServerError?
  {
    var own := RequestTypeStatus(records.request, table);
    match ProspectiveStatus(records.requestQueue, table, own)
    case Failure(fault) => Failed(Crash(fault))
    case Success(target) =>
      match RequestBundles.GetInventoryRecords(records)
      case None => Failed(Crash(MissingInventoryRecords))
      case Some(_) => SettleRequestItem(records, target, putCode)
  }

  /** Re-running check-out on what it returned writes nothing more. */
  lemma CheckOutIsIdempotent(records: Loans.LoanAndRelatedRecords, table: map<string, string>, putCode: int, putCode': int)
    requires !OnCheckOut(records, table, putCode).Failed?
    ensures OnCheckOut(OnCheckOut(records, table, putCode).value, table, putCode') == Skipped(OnCheckOut(records, table, putCode).value)
  {
  }

  /** Re-running a loan update on what it returned writes nothing more. */
  lemma LoanUpdateIsIdempotent(records: Loans.LoanAndRelatedRecords, table: map<string, string>, putCode: int, putCode': int)
    requires !OnLoanUpdate(records, table, putCode).Failed?
    ensures OnLoanUpdate(OnLoanUpdate(records, table, putCode).value, table, putCode') == Skipped(OnLoanUpdate(records, table, putCode).value)
  {
  }

  /** Re-running request creation on what it returned writes nothing more. */
  lemma RequestCreationIsIdempotent(records: RequestBundles.RequestAndRelatedRecords, table: map<string, string>, putCode: int, putCode': int)
    requires !OnRequestCreation(records, table, putCode).Failed?
    ensures OnRequestCreation(OnRequestCreation(records, table, putCode).value, table, putCode') == Skipped(OnRequestCreation(records, table, putCode).value)
  {
  }

  /** On a loan that is not closed, check-out and loan update decide identically. */
  lemma ActiveLoanEntryPointsAgree(records: Loans.LoanAndRelatedRecords, table: map<string, string>, putCode: int)
    requires ActiveLoan(records)
    ensures OnCheckOut(records, table, putCode) == OnLoanUpdate(records, table, putCode)
  {
  }

  /** A null loan status name reads as not closed, so no loan entry point reaches the
      null-name fault of ItemStatusFrom. */
  lemma LoanStatusNameNeverFaults(records: Loans.LoanAndRelatedRecords, table: map<string, string>, putCode: int)
    ensures OnCheckOut(records, table, putCode) != Failed(Crash(MissingLoanStatusName))
    ensures OnLoanUpdate(records, table, putCode) != Failed(Crash(MissingLoanStatusName))
  {
  }

  /** A closed loan never reads the request queue: check-out skips and a loan update can
      only fail in storage, whether or not a queue is present. */
  lemma ClosedLoanNeverReadsQueue(records: Loans.LoanAndRelatedRecords, table: map<string, string>, putCode: int)
    requires ClosedLoan(records.loan) && records.inventoryRecords.Some?
    ensures OnCheckOut(records, table, putCode) == Skipped(records)
    ensures OnLoanUpdate(records, table, putCode).Failed? ==> OnLoanUpdate(records, table, putCode).failure == UPDATE_FAILED
  {
  }
}
