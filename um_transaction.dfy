/**
 * The gateway's transaction object (`umTransaction`): a bag of named fields
 * that the request fills in one by one, then hands to the gateway library's
 * `Process()`. The library itself is not part of this model: its reply is an
 * oracle, a function of the fields it is handed.
 */
module UmTransaction {
  import opened PhpValues

  /** The fields the request writes, in the order it writes them. */
  datatype Payload = Payload(
    usesandbox: Value,
    testmode: Value,
    key: Value,
    pin: Value,
    command: Value,
    invoice: Value,
    amount: Value,
    description: Value,
    addcustomer: Value,
    schedule: Value,
    numleft: Value,
    start: Value,
    card: Value,
    exp: Value,
    cvv2: Value,
    cardholder: Value,
    street: Value,
    zip: Value,
    email: Value,
    billfname: Value,
    billlname: Value,
    billcompany: Value,
    billstreet: Value,
    billstreet2: Value,
    billcity: Value,
    billstate: Value,
    billzip: Value,
    billcountry: Value,
    billphone: Value,
    refnum: Value)

  /** A transaction no field of which has been written yet. */
  const Unset: Payload := Payload(
    Null, Null, Null, Null, Null, Null, Null, Null, Null, Null,
    Null, Null, Null, Null, Null, Null, Null, Null, Null, Null,
    Null, Null, Null, Null, Null, Null, Null, Null, Null, Null)

  /** What `Process()` returns, and the `error` and `rawresult` it leaves on the object. */
  datatype ProcessReply = ProcessReply(result: Value, error: string, rawresult: string)

  /**
   * The transaction object. Its request properties are kept together in
   * `fields`; writing one property replaces that one component.
   */
  class Transaction {
    var fields: Payload
    var error: string
    var rawresult: string

    constructor ()
      ensures fields == Unset && error == "" && rawresult == ""
    {
      fields := Unset;
      error, rawresult := "", "";
    }

    /**
     * Sends the transaction: the gateway library sees the written fields and
     * answers with a result, an error text and the raw response.
     */
    method Process(process: Payload -> ProcessReply) returns (result: Value)
      modifies this`error, this`rawresult
      ensures result == process(fields).result
      ensures error == process(fields).error
      ensures rawresult == process(fields).rawresult
    {
      var reply := process(fields);
      error := reply.error;
      rawresult := reply.rawresult;
      result := reply.result;
    }
  }
}
