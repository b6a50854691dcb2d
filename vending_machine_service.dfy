/** The lock client (src/services/VendingMachineService.ts): acquire, release
    and status calls on top of the API client. Each operation takes what the
    network delivered and returns the promise's outcome: a value, or an error
    the caller sees thrown. */
module VendingMachineService {
  import opened Wrappers
  import opened ApiClient

  datatype MachineStatus = MachineStatus(isOccupied: bool)

  const AcquireEndpoint := "/api/vending-machine/acquire"
  const ReleaseEndpoint := "/api/products/release"
  const StatusEndpoint := "/api/orders/status"

  /** The requests the three operations send: two POSTs without a body and a GET. */
  function AcquireRequest<D>(): FetchCall<D> { WithData(Post, AcquireEndpoint, None) }

  function ReleaseRequest<D>(): FetchCall<D> { WithData(Post, ReleaseEndpoint, None) }

  function StatusRequest<D>(): FetchCall<D> { WithoutData(Get, StatusEndpoint) }

  /** `acquireLock`: true when the POST succeeds, false when it failed with the
      busy error, and any other error rethrown. The response data is ignored. */
  function AcquireLock<T>(x: Exchange<T>): (r: Result<bool, Error>)
    ensures r.Err? ==> r.error.message != BusyMessage
  {
    match Classify(x)
    case Ok(_) => Ok(true)
    case Err(e) => if e.message == BusyMessage then Ok(false) else Err(e)
  }

  /** `releaseLock`: no catch, so a failure reaches the caller. */
  function ReleaseLock<T>(x: Exchange<T>): Result<(), Error> {
    match Classify(x)
    case Ok(_) => Ok(())
    case Err(e) => Err(e)
  }

  /** `getStatus`: the payload's data, or the error, passed through. */
  function GetStatus(x: Exchange<MachineStatus>): Result<MachineStatus, Error> {
    Classify(x)
  }

  // ---------------------------------------------------------------------------
  // Properties
  // ---------------------------------------------------------------------------

  /** The three outcomes of an acquire: granted, busy, or rethrown. */
  lemma AcquireOutcomes<T>(x: Exchange<T>)
    ensures AcquireLock(x) == Ok(true) <==> Classify(x).Ok?
    ensures AcquireLock(x) == Ok(false) <==> Classify(x) == Err(Error(BusyMessage))
    ensures AcquireLock(x).Err? ==> Classify(x).Err? && AcquireLock(x).error == Classify(x).error
  {
  }

  /** A 423 answer to the acquire POST resolves to false, never to an error. */
  lemma AcquireLockedIsFalse<T>(payload: Payload<T>)
    ensures AcquireLock(Responded(423, payload)) == Ok(false)
  {
    LockedStatusIsBusy(payload);
  }

  /** False is returned exactly for status 423, or for a busy message coming
      from a failed payload or from `fetch` itself. */
  lemma AcquireFalseExactlyWhenBusy<T>(x: Exchange<T>)
    ensures AcquireLock(x) == Ok(false) <==>
      || (x.Rejected? && x.error.message == BusyMessage)
      || (x.Responded? && x.status == 423)
      || (x.Responded? && IsOk(x.status) && !x.payload.success && x.payload.message == BusyMessage)
  {
    BusyErrorSources(x);
  }

  /** Release and status failures propagate unchanged to the caller. */
  lemma ReleaseAndStatusPropagate<T>(x: Exchange<T>, y: Exchange<MachineStatus>)
    ensures ReleaseLock(x).Err? <==> Classify(x).Err?
    ensures ReleaseLock(x).Err? ==> ReleaseLock(x).error == Classify(x).error
    ensures GetStatus(y) == Classify(y)
  {
  }

  /** The lock calls are POSTs without a body and the status call a GET, all with credentials. */
  lemma LockRequests<D>()
    ensures AcquireRequest<D>().verb == Post && AcquireRequest<D>().body.None?
    ensures ReleaseRequest<D>().verb == Post && ReleaseRequest<D>().body.None?
    ensures StatusRequest<D>().verb == Get && StatusRequest<D>().body.None?
    ensures AcquireRequest<D>().credentials == ReleaseRequest<D>().credentials
         == StatusRequest<D>().credentials == IncludeCredentials
  {
  }
}
