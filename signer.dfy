/**
 * The signer service (`api.signer`) the component calls. Its real behaviour is
 * outside this model; each call is recorded, in order, in an append-only log.
 */
module SignerApi {
  import opened Js

  /** The opaque identifier of a pending signing request. */
  type RequestId = string

  /** One recorded call into the signer. */
  datatype SignerCall =
    | Raw(id: RequestId, data: string)                                    // confirmRequestRaw(id, data)
    | Password(id: RequestId, subset: map<string, Value>, password: string) // confirmRequest(id, subset, password)

  class Signer {
    /** Every call made so far, oldest first. */
    var calls: seq<SignerCall>

    constructor ()
      ensures calls == []
    {
      calls := [];
    }

    /** `confirmRequestRaw(id, data)`: confirm with data that is already signed. */
    method ConfirmRequestRaw(id: RequestId, data: string)
      modifies this
      ensures calls == old(calls) + [Raw(id, data)]
    {
      calls := calls + [Raw(id, data)];
    }

    /** `confirmRequest(id, subset, password)`: confirm by unlocking the account. */
    method ConfirmRequest(id: RequestId, subset: map<string, Value>, password: string)
      modifies this
      ensures calls == old(calls) + [Password(id, subset, password)]
    {
      calls := calls + [Password(id, subset, password)];
    }
  }
}
