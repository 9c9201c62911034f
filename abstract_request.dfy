/**
 * The USAePay legacy-gateway request: a parameter bag with a validated
 * recurrence interval, the table and flag lookups the gateway needs, and
 * `SendData`, which writes the bag onto a gateway transaction, picks one
 * payment source, calls the gateway library and classifies its answer.
 */
module AbstractRequest {
  import opened Wrappers
  import opened PhpValues
  import opened UmTransaction

  const LiveEndpoint: string := "https://www.usaepay.com/gate"
  const SandboxEndpoint: string := "https://sandbox.usaepay.com/gate"

  /** The accepted interval keys and the schedule name the gateway expects for each. */
  const Intervals: map<string, string> := map[
    "" := "disabled",
    "day" := "daily",
    "week" := "weekly",
    "month" := "monthly",
    "year" := "annually"]

  const IntervalNotAllowed: string := "Interval not in list of allowed values."

  /** What Omnipay's `setParameter` throws once the request has a response. */
  const RequestAlreadySent: string := "Request cannot be modified after it has been sent!"

  /** The expiry written when a stored card reference stands in for the card. */
  const StoredCardExpiry: string := "0000"

  /** The recurring schedule always starts with the next billing cycle. */
  const ScheduleStart: string := "next"

  /** A parameter bag: a missing key reads as null. */
  type Params = map<string, Value>

  function Param(p: Params, key: string): Value {
    if key in p then p[key] else Null
  }

  /** The interval parameter is unset or one of the table's keys. */
  predicate IntervalValid(p: Params) {
    var v := Param(p, "interval");
    v == Null || (v.Str? && v.s in Intervals)
  }

  /** The interval count parameter is unset or an integer. */
  predicate IntervalCountValid(p: Params) {
    var v := Param(p, "intervalCount");
    v == Null || v.Int?
  }

  predicate ValidParams(p: Params) {
    IntervalValid(p) && IntervalCountValid(p)
  }

  /** The table key the stored interval selects; PHP reads a null key as "". */
  function IntervalKey(p: Params): (k: string)
    requires IntervalValid(p)
    ensures k in Intervals
  {
    var v := Param(p, "interval");
    if v.Str? then v.s else ""
  }

  /** `getInterval`: the schedule name of the stored interval. */
  function Schedule(p: Params): (r: string)
    requires IntervalValid(p)
    ensures r == "disabled" || r == "daily" || r == "weekly" || r == "monthly" || r == "annually"
    ensures r == "disabled" <==> Param(p, "interval") == Null || Param(p, "interval") == Str("")
  {
    Intervals[IntervalKey(p)]
  }

  /** The interval key a schedule name stands for, if any. */
  function IntervalForSchedule(name: string): (r: Option<string>)
    ensures r.Some? ==> r.value in Intervals && Intervals[r.value] == name
    ensures r.None? ==> forall k :: k in Intervals ==> Intervals[k] != name
  {
    if name == "disabled" then Some("")
    else if name == "daily" then Some("day")
    else if name == "weekly" then Some("week")
    else if name == "monthly" then Some("month")
    else if name == "annually" then Some("year")
    else None
  }

  /** `setInterval`'s first step: every value PHP calls empty becomes "". */
  function NormalisedInterval(v: Value): (r: Value)
    ensures r == Str("") <==> v == Null || v == Bool(false) || v == Int(0) || v == Str("") || v == Str("0")
    ensures r != Str("") ==> r == v
  {
    if IsEmpty(v) then Str("") else v
  }

  /** Whether `setInterval` accepts a value. */
  function IntervalAllowed(v: Value): (ok: bool)
    ensures ok <==> IsEmpty(v) || v == Str("day") || v == Str("week") || v == Str("month") || v == Str("year")
  {
    var n := NormalisedInterval(v);
    n.Str? && n.s in Intervals
  }

  /** `getAddCustomer`: "yes" only for the boolean true. */
  function AddCustomer(p: Params): (r: string)
    ensures r == "yes" <==> Param(p, "addCustomer") == Bool(true)
    ensures r == "yes" || r == ""
  {
    if Param(p, "addCustomer") == Bool(true) then "yes" else ""
  }

  /** `getIntervalCount`: the stored count, null if it was never set. */
  function IntervalCount(p: Params): (r: Value)
    requires IntervalCountValid(p)
    ensures r == Null || r.Int?
  {
    Param(p, "intervalCount")
  }

  /** `getEndpoint`: the sandbox host exactly when test mode is on. */
  function Endpoint(p: Params): (r: string)
    ensures r == SandboxEndpoint <==> Truthy(Param(p, "testMode"))
    ensures r == LiveEndpoint <==> !Truthy(Param(p, "testMode"))
  {
    if Truthy(Param(p, "testMode")) then SandboxEndpoint else LiveEndpoint
  }

  /** `isset($data['card'])`. */
  predicate CardSet(data: Params) {
    Param(data, "card") != Null
  }

  /** The fields every transaction carries, whatever pays for it. */
  function RequestFields(p: Params, cmd: string, data: Params): Payload
    requires ValidParams(p)
  {
    Unset.(
      usesandbox := Param(p, "sandbox"),
      testmode := Param(p, "testMode"),
      key := Param(p, "source"),
      pin := Param(p, "pin"),
      command := Str(cmd),
      invoice := Param(p, "invoice"),
      amount := Param(data, "amount"),
      description := Param(p, "description"),
      addcustomer := Str(AddCustomer(p)),
      schedule := Str(Schedule(p)),
      numleft := IntervalCount(p),
      start := Str(ScheduleStart))
  }

  /** The card and billing fields, copied from the card object. */
  function WithCard(pl: Payload, c: CreditCard): Payload {
    pl.(
      card := c.number,
      exp := c.expiryDate,
      cvv2 := c.cvv,
      cardholder := c.name,
      street := c.address1,
      zip := c.postcode,
      email := c.email,
      billfname := c.billingFirstName,
      billlname := c.billingLastName,
      billcompany := c.billingCompany,
      billstreet := c.billingAddress1,
      billstreet2 := c.billingAddress2,
      billcity := c.billingCity,
      billstate := c.billingState,
      billzip := c.billingPostcode,
      billcountry := c.billingCountry,
      billphone := c.billingPhone)
  }

  /** Reads a card back out of the fields `WithCard` writes. */
  function CardFromPayload(pl: Payload): CreditCard {
    CreditCard(
      pl.card, pl.exp, pl.cvv2, pl.cardholder, pl.street, pl.zip, pl.email,
      pl.billfname, pl.billlname, pl.billcompany, pl.billstreet, pl.billstreet2,
      pl.billcity, pl.billstate, pl.billzip, pl.billcountry, pl.billphone)
  }

  /** None of the fields that only the card branch writes is set. */
  predicate CardDetailsUnset(pl: Payload) {
    && pl.cvv2 == Null && pl.cardholder == Null && pl.street == Null && pl.zip == Null
    && pl.email == Null && pl.billfname == Null && pl.billlname == Null
    && pl.billcompany == Null && pl.billstreet == Null && pl.billstreet2 == Null
    && pl.billcity == Null && pl.billstate == Null && pl.billzip == Null
    && pl.billcountry == Null && pl.billphone == Null
  }

  /**
   * The transaction `sendData` hands to the gateway library, or None when
   * the data says there is a card but the request holds no card object (PHP
   * stops with an error on the first card getter).
   */
  function PayloadFor(p: Params, cmd: string, data: Params): (r: Option<Payload>)
    requires ValidParams(p)
    ensures r.None? <==> CardSet(data) && !Param(p, "card").Card?
  {
    var base := RequestFields(p, cmd, data);
    if CardSet(data) then
      match Param(p, "card")
      case Card(c) => Some(WithCard(base, c))
      case _ => None
    else if Truthy(Param(p, "cardReference")) then
      Some(base.(card := Param(p, "cardReference"), exp := Str(StoredCardExpiry)))
    else
      Some(base.(refnum := Param(p, "transactionReference")))
  }

  /** How `sendData` ends. */
  datatype SendOutcome =
    | Completed(rawresult: string)   // the gateway accepted; its raw response becomes the response
    | GatewayError(message: string)  // an exception carrying the gateway's error text
    | CardUnavailable                // the card branch was taken without a card object

  /** Only a result that is exactly `true` is a success. */
  function Classify(reply: ProcessReply): (r: SendOutcome)
    ensures r.Completed? <==> reply.result == Bool(true)
    ensures r.Completed? ==> r.rawresult == reply.rawresult
    ensures !r.Completed? ==> r == GatewayError(reply.error)
  {
    if reply.result != Bool(true) then GatewayError(reply.error) else Completed(reply.rawresult)
  }

  /** The outcome of `sendData` for a bag, a command, the request data and a gateway. */
  function SendOutcomeFor(p: Params, cmd: string, data: Params, process: Payload -> ProcessReply): SendOutcome
    requires ValidParams(p)
  {
    match PayloadFor(p, cmd, data)
    case None => CardUnavailable
    case Some(pl) => Classify(process(pl))
  }

  class Request {
    /** `getCommand()`, fixed by the concrete request (sale, authonly, ...). */
    const command: string
    var parameters: Params
    /** The last successful response (its raw gateway text). */
    var response: Option<string>

    ghost predicate Valid()
      reads this
    {
      ValidParams(parameters)
    }

    constructor (command: string)
      ensures Valid()
      ensures this.command == command && parameters == map[] && response == None
    {
      this.command := command;
      parameters := map[];
      response := None;
    }

    /**
     * Omnipay's `setParameter`, through which every setter writes (test mode,
     * card, card reference, transaction reference, ...): once the request has
     * a response it throws and nothing changes. The interval and its count
     * are written only through their validating setters.
     */
    method SetParameter(key: string, value: Value) returns (outcome: Outcome<string>)
      requires Valid()
      requires key != "interval" && key != "intervalCount"
      modifies this`parameters
      ensures Valid()
      ensures outcome == if response.None? then Pass else Fail(RequestAlreadySent)
      ensures outcome.Pass? ==> parameters == old(parameters)[key := value]
      ensures outcome.Fail? ==> parameters == old(parameters)
    {
      if response.Some? {
        outcome := Fail(RequestAlreadySent);
        return;
      }
      parameters := parameters[key := value];
      outcome := Pass;
    }

    method SetSandbox(value: Value) returns (outcome: Outcome<string>)
      requires Valid()
      modifies this`parameters
      ensures Valid()
      ensures outcome == if response.None? then Pass else Fail(RequestAlreadySent)
      ensures outcome.Pass? ==> parameters == old(parameters)["sandbox" := value]
      ensures outcome.Fail? ==> parameters == old(parameters)
    {
      outcome := SetParameter("sandbox", value);
    }

    method SetSource(value: Value) returns (outcome: Outcome<string>)
      requires Valid()
      modifies this`parameters
      ensures Valid()
      ensures outcome == if response.None? then Pass else Fail(RequestAlreadySent)
      ensures outcome.Pass? ==> parameters == old(parameters)["source" := value]
      ensures outcome.Fail? ==> parameters == old(parameters)
    {
      outcome := SetParameter("source", value);
    }

    method SetPin(value: Value) returns (outcome: Outcome<string>)
      requires Valid()
      modifies this`parameters
      ensures Valid()
      ensures outcome == if response.None? then Pass else Fail(RequestAlreadySent)
      ensures outcome.Pass? ==> parameters == old(parameters)["pin" := value]
      ensures outcome.Fail? ==> parameters == old(parameters)
    {
      outcome := SetParameter("pin", value);
    }

    method SetInvoice(value: Value) returns (outcome: Outcome<string>)
      requires Valid()
      modifies this`parameters
      ensures Valid()
      ensures outcome == if response.None? then Pass else Fail(RequestAlreadySent)
      ensures outcome.Pass? ==> parameters == old(parameters)["invoice" := value]
      ensures outcome.Fail? ==> parameters == old(parameters)
    {
      outcome := SetParameter("invoice", value);
    }

    method SetDescription(value: Value) returns (outcome: Outcome<string>)
      requires Valid()
      modifies this`parameters
      ensures Valid()
      ensures outcome == if response.None? then Pass else Fail(RequestAlreadySent)
      ensures outcome.Pass? ==> parameters == old(parameters)["description" := value]
      ensures outcome.Fail? ==> parameters == old(parameters)
    {
      outcome := SetParameter("description", value);
    }

    method SetAddCustomer(value: Value) returns (outcome: Outcome<string>)
      requires Valid()
      modifies this`parameters
      ensures Valid()
      ensures outcome == if response.None? then Pass else Fail(RequestAlreadySent)
      ensures outcome.Pass? ==> parameters == old(parameters)["addCustomer" := value]
      ensures outcome.Fail? ==> parameters == old(parameters)
    {
      outcome := SetParameter("addCustomer", value);
    }

    /**
     * `setInterval`: an empty value is stored as ""; any other value must be
     * a key of the interval table, or the call throws and nothing changes.
     * The write itself goes through `setParameter`'s guard.
     */
    method SetInterval(value: Value) returns (outcome: Outcome<string>)
      requires Valid()
      modifies this`parameters
      ensures Valid()
      ensures outcome == if !IntervalAllowed(value) then Fail(IntervalNotAllowed)
                         else if response.Some? then Fail(RequestAlreadySent)
                         else Pass
      ensures outcome.Pass? ==> parameters == old(parameters)["interval" := NormalisedInterval(value)]
      ensures outcome.Fail? ==> parameters == old(parameters)
    {
      var v := value;
      if IsEmpty(v) {
        v := Str("");
      }
      if !(v.Str? && v.s in Intervals) {
        outcome := Fail(IntervalNotAllowed);
        return;
      }
      if response.Some? {
        outcome := Fail(RequestAlreadySent);
        return;
      }
      parameters := parameters["interval" := v];
      outcome := Pass;
    }

    /** `setIntervalCount`: stores the value cast to an integer, through `setParameter`'s guard. */
    method SetIntervalCount(value: Value) returns (outcome: Outcome<string>)
      requires Valid()
      modifies this`parameters
      ensures Valid()
      ensures outcome == if response.None? then Pass else Fail(RequestAlreadySent)
      ensures outcome.Pass? ==> parameters == old(parameters)["intervalCount" := Int(IntCast(value))]
      ensures outcome.Pass? ==> IntervalCount(parameters) == Int(IntCast(value))
      ensures outcome.Fail? ==> parameters == old(parameters)
    {
      if response.Some? {
        outcome := Fail(RequestAlreadySent);
        return;
      }
      parameters := parameters["intervalCount" := Int(IntCast(value))];
      outcome := Pass;
    }

    /** The first part of `sendData`: credentials, request fields and schedule. */
    method WriteRequestFields(tx: Transaction, data: Params)
      requires Valid()
      requires tx.fields == Unset
      modifies tx`fields
      ensures tx.fields == RequestFields(parameters, command, data)
    {
      tx.fields := tx.fields.(usesandbox := Param(parameters, "sandbox"));
      tx.fields := tx.fields.(testmode := Param(parameters, "testMode"));
      tx.fields := tx.fields.(key := Param(parameters, "source"));
      tx.fields := tx.fields.(pin := Param(parameters, "pin"));
      tx.fields := tx.fields.(command := Str(command));
      tx.fields := tx.fields.(invoice := Param(parameters, "invoice"));
      tx.fields := tx.fields.(amount := Param(data, "amount"));
      tx.fields := tx.fields.(description := Param(parameters, "description"));
      tx.fields := tx.fields.(addcustomer := Str(AddCustomer(parameters)));
      tx.fields := tx.fields.(schedule := Str(Schedule(parameters)));
      tx.fields := tx.fields.(numleft := IntervalCount(parameters));
      tx.fields := tx.fields.(start := Str(ScheduleStart));
    }

    /**
     * `sendData`: fills a new gateway transaction from the bag and the request
     * data, lets the gateway process it, and keeps the response only when the
     * gateway's result is exactly `true`.
     */
    method SendData(data: Params, process: Payload -> ProcessReply) returns (outcome: SendOutcome)
      requires Valid()
      modifies this`response
      ensures outcome == SendOutcomeFor(parameters, command, data, process)
      ensures response == if outcome.Completed? then Some(outcome.rawresult) else old(response)
    {
      var tx := new Transaction();
      WriteRequestFields(tx, data);

      if CardSet(data) {
        var card := Param(parameters, "card");
        if !card.Card? {
          outcome := CardUnavailable;
          return;
        }
        WriteCard(tx, card.obj);
      } else if Truthy(Param(parameters, "cardReference")) {
        tx.fields := tx.fields.(card := Param(parameters, "cardReference"));
        tx.fields := tx.fields.(exp := Str(StoredCardExpiry));
      } else {
        tx.fields := tx.fields.(refnum := Param(parameters, "transactionReference"));
      }
      assert tx.fields == PayloadFor(parameters, command, data).value;

      var result := tx.Process(process);
      if result != Bool(true) {
        outcome := GatewayError(tx.error);
        return;
      }
      response := Some(tx.rawresult);
      outcome := Completed(tx.rawresult);
    }
  }

  /** The card branch of `sendData`: card and billing fields from the card's getters. */
  method WriteCard(tx: Transaction, c: CreditCard)
    modifies tx`fields
    ensures tx.fields == WithCard(old(tx.fields), c)
  {
    tx.fields := tx.fields.(card := c.number);
    tx.fields := tx.fields.(exp := c.expiryDate);
    tx.fields := tx.fields.(cvv2 := c.cvv);
    tx.fields := tx.fields.(cardholder := c.name);
    tx.fields := tx.fields.(street := c.address1);
    tx.fields := tx.fields.(zip := c.postcode);
    tx.fields := tx.fields.(email := c.email);

    tx.fields := tx.fields.(billfname := c.billingFirstName);
    tx.fields := tx.fields.(billlname := c.billingLastName);
    tx.fields := tx.fields.(billcompany := c.billingCompany);
    tx.fields := tx.fields.(billstreet := c.billingAddress1);
    tx.fields := tx.fields.(billstreet2 := c.billingAddress2);
    tx.fields := tx.fields.(billcity := c.billingCity);
    tx.fields := tx.fields.(billstate := c.billingState);
    tx.fields := tx.fields.(billzip := c.billingPostcode);
    tx.fields := tx.fields.(billcountry := c.billingCountry);
    tx.fields := tx.fields.(billphone := c.billingPhone);
  }

  // ---------------------------------------------------------------------
  // Properties of the lookups
  // ---------------------------------------------------------------------

  /** No two interval keys share a schedule name: the stored key can be read back from it. */
  lemma IntervalRecoverableFromSchedule(p: Params)
    requires IntervalValid(p)
    ensures IntervalForSchedule(Schedule(p)) == Some(IntervalKey(p))
  {
  }

  /** After an accepted `setInterval`, `getInterval` names that interval's schedule. */
  lemma ScheduleAfterSetInterval(p: Params, v: Value)
    requires IntervalValid(p)
    requires IntervalAllowed(v)
    ensures IntervalValid(p["interval" := NormalisedInterval(v)])
    ensures Schedule(p["interval" := NormalisedInterval(v)])
         == if IsEmpty(v) then "disabled" else Intervals[v.s]
  {
  }

  /**
   * `getIntervalCount` after `setIntervalCount` gives back the integer cast
   * of the value set, whatever the bag held before; the decimal text of an
   * integer, followed by anything that does not continue the number, reads
   * back as that integer.
   */
  lemma IntervalCountAfterSet(p: Params, v: Value)
    requires IntervalCountValid(p)
    ensures IntervalCountValid(p["intervalCount" := Int(IntCast(v))])
    ensures IntervalCount(p["intervalCount" := Int(IntCast(v))]) == Int(IntCast(v))
    ensures forall n: int, rest: string :: v == Str(DecimalString(n) + rest) && (|rest| == 0 || !IsDigit(rest[0]))
              ==> IntervalCount(p["intervalCount" := Int(IntCast(v))]) == Int(n)
  {
    forall n: int, rest: string | v == Str(DecimalString(n) + rest) && (|rest| == 0 || !IsDigit(rest[0])) {
      IntCastOfNumericPrefix(n, rest);
    }
  }

  /** The endpoint depends on test mode alone, never on the sandbox parameter. */
  lemma EndpointIgnoresSandbox(p: Params, v: Value)
    ensures Endpoint(p["sandbox" := v]) == Endpoint(p)
  {
  }

  // ---------------------------------------------------------------------
  // Properties of the transaction sendData builds
  // ---------------------------------------------------------------------

  /** Whatever pays, the request's own fields are copied onto the transaction unchanged. */
  lemma PayloadCopiesRequestFields(p: Params, cmd: string, data: Params)
    requires ValidParams(p)
    requires PayloadFor(p, cmd, data).Some?
    ensures var pl := PayloadFor(p, cmd, data).value;
      && pl.usesandbox == Param(p, "sandbox")
      && pl.testmode == Param(p, "testMode")
      && pl.key == Param(p, "source")
      && pl.pin == Param(p, "pin")
      && pl.command == Str(cmd)
      && pl.invoice == Param(p, "invoice")
      && pl.amount == Param(data, "amount")
      && pl.description == Param(p, "description")
      && pl.addcustomer == Str(AddCustomer(p))
      && pl.schedule == Str(Schedule(p))
      && pl.numleft == Param(p, "intervalCount")
      && pl.start == Str("next")
  {
    var pl := PayloadFor(p, cmd, data).value;
    var base := RequestFields(p, cmd, data);
    if CardSet(data) {
      assert pl == WithCard(base, Param(p, "card").obj);
    } else if Truthy(Param(p, "cardReference")) {
      assert pl == base.(card := Param(p, "cardReference"), exp := Str(StoredCardExpiry));
    } else {
      assert pl == base.(refnum := Param(p, "transactionReference"));
    }
  }

  /**
   * With card data, every card and billing field comes from the card (the
   * card can be read back from the transaction), and no transaction
   * reference is sent.
   */
  lemma CardBranch(p: Params, cmd: string, data: Params, c: CreditCard)
    requires ValidParams(p)
    requires CardSet(data) && Param(p, "card") == Card(c)
    ensures PayloadFor(p, cmd, data).Some?
    ensures CardFromPayload(PayloadFor(p, cmd, data).value) == c
    ensures PayloadFor(p, cmd, data).value.refnum == Null
  {
  }

  /**
   * Without card data but with a truthy card reference, the reference goes
   * in the card field with the sentinel expiry "0000"; no other card field
   * and no transaction reference is set.
   */
  lemma StoredCardBranch(p: Params, cmd: string, data: Params)
    requires ValidParams(p)
    requires !CardSet(data) && Truthy(Param(p, "cardReference"))
    ensures PayloadFor(p, cmd, data).Some?
    ensures var pl := PayloadFor(p, cmd, data).value;
      && pl.card == Param(p, "cardReference")
      && pl.exp == Str("0000")
      && CardDetailsUnset(pl)
      && pl.refnum == Null
  {
  }

  /**
   * Otherwise the transaction reference goes in `refnum` and no card field is
   * set. The transaction is built even when that reference is null too:
   * there is no "no payment source" error.
   */
  lemma PriorTransactionBranch(p: Params, cmd: string, data: Params)
    requires ValidParams(p)
    requires !CardSet(data) && !Truthy(Param(p, "cardReference"))
    ensures PayloadFor(p, cmd, data).Some?
    ensures var pl := PayloadFor(p, cmd, data).value;
      && pl.refnum == Param(p, "transactionReference")
      && pl.card == Null && pl.exp == Null
      && CardDetailsUnset(pl)
  {
  }
}
