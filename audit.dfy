/** The append-only audit trail the payments core keeps of gateway
    interactions.  The integration only ever appends to it. */
module Audit {

  import opened PyValues

  /** The audit actions the integration records. */
  datatype Action =
    | ReceivedResponse
    | ResponseInvalidCart
    | DuplicateTransaction
    | TransactionRolledBack
    | CartFulfilled

  /** One audit record: its action, the gateway slug, the cart it concerns
      (None when no cart could be found) and its context mapping. */
  datatype Entry = Entry(action: Action, gateway: string, cart: Option<string>, context: map<string, Value>)

  /** The record of a raw gateway response. */
  function ReceivedEntry(gateway: string, data: map<string, Value>): (e: Entry)
    ensures e.action == ReceivedResponse && e.cart == None
    ensures e.context == map["data" := Dict(data)]
  {
    Entry(ReceivedResponse, gateway, None, map["data" := Dict(data)])
  }

  class AuditLog {
    var entries: seq<Entry>

    constructor ()
      ensures entries == []
    {
      entries := [];
    }

    /** Appends one record and changes nothing else. */
    method Log(e: Entry)
      modifies this
      ensures entries == old(entries) + [e]
    {
      entries := entries + [e];
    }
  }
}
