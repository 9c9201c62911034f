# USAePay legacy-gateway request, modelled in Dafny

This project models the request class of the Omnipay USAePay adapter
(`src/Message/AbstractRequest.php`). The class does two jobs:

- It keeps the request's parameters in a parameter bag. Its setters guard the
  recurrence interval: only `''`, `day`, `week`, `month` and `year` are
  accepted, and every PHP-empty value becomes `''`. The interval count is cast
  to an integer.
- `sendData` copies the credentials and request fields onto a gateway
  transaction object (`umTransaction`). It then picks exactly one payment
  source: card data, else a stored card reference (with the sentinel expiry
  `0000`), else a prior transaction reference. It calls the gateway library's
  `Process()`. Any result other than exactly `true` becomes an exception
  carrying the gateway's error text.

Files:

- `wrappers.dfy`: `Option` and `Outcome` (an operation that either passes or
  throws with a message).
- `php_values.dfy`: the PHP values a bag holds (`Value`), Omnipay's card object
  as a record of getter results (`CreditCard`), PHP's `empty()`, truthiness
  and the `(int)` cast of strings, with the proof that the cast reads back the
  decimal text of any integer.
- `um_transaction.dfy`: the fields the request writes onto the gateway
  transaction (`Payload`), and the mutable `Transaction` object. Its
  `Process()` is an oracle: a function from the written fields to the
  gateway's reply.
- `abstract_request.dfy`: the interval table, the getters as functions over
  the bag, the `Request` class with its setters and `SendData`, the
  specification function `PayloadFor` of the transaction `sendData` builds,
  and the lemmas about them.

The bag is a `map<string, Value>`, and a missing key reads as null. The
simple getters (`getSandbox`, `getSource`, `getPin`, `getInvoice`,
`getDescription`, and Omnipay's `getTestMode`, `getCard`, `getCardReference`
and `getTransactionReference`) are reads of the bag (`Param`). Every setter
writes through Omnipay's `setParameter`, which throws `Request cannot be
modified after it has been sent!` once the request holds a response; the
setters here return `Fail` with that message and leave the bag unchanged.
`Request.SetParameter` stands for the setters Omnipay's base class supplies
(`setTestMode`, `setCard`, `setCardReference`, `setTransactionReference`).
`Request.Valid()` is the class invariant: the interval is null or a key of the
table, and the count is null or an integer. Every setter keeps it.

There is no "no payment source" error. Without card data or a truthy card
reference, `sendData` sends `refnum` with the transaction reference, even when
that reference is null (`PriorTransactionBranch`).

## Model

| member | source | states |
|---|---|---|
| `PhpValues.IntCast` | src/Message/AbstractRequest.php:132 | The `(int)` cast: every PHP-empty value gives 0, an integer is kept, `true` gives 1, an object gives 1 |
| `PhpValues.IntCastOfNumericPrefix` | src/Message/AbstractRequest.php:130-133 | Casting the decimal text of any integer `n` gives back `n`, also when text that does not continue the number follows (`"12abc"` gives 12) |
| `AbstractRequest.Schedule` | src/Message/AbstractRequest.php:105-110 | `getInterval` on a valid bag is always one of the five schedule names, and is `disabled` exactly when the interval is unset (null) or `''` |
| `AbstractRequest.IntervalRecoverableFromSchedule` | src/Message/AbstractRequest.php:29-35 | No two interval keys share a schedule name: the stored key can be read back from `getInterval`'s result |
| `AbstractRequest.NormalisedInterval` | src/Message/AbstractRequest.php:114-116 | Exactly null, `false`, `0`, `''` and `'0'` become `''`; every other value is passed on unchanged |
| `AbstractRequest.IntervalAllowed` | src/Message/AbstractRequest.php:118-120 | `setInterval` accepts exactly the empty values and the strings `day`, `week`, `month`, `year` |
| `AbstractRequest.ScheduleAfterSetInterval` | src/Message/AbstractRequest.php:105-122 | After an accepted `setInterval`, the bag is still valid and `getInterval` gives `disabled` for an empty value and the table's name for the key otherwise |
| `AbstractRequest.AddCustomer` | src/Message/AbstractRequest.php:91-98 | `getAddCustomer` is `yes` if and only if the stored flag is the boolean `true`, and `''` for every other value, truthy ones included |
| `AbstractRequest.IntervalCount` | src/Message/AbstractRequest.php:125-128 | `getIntervalCount` on a valid bag is null (never set) or an integer |
| `AbstractRequest.IntervalCountAfterSet` | src/Message/AbstractRequest.php:125-133 | After `setIntervalCount(v)`, `getIntervalCount` returns exactly the integer cast of `v`, whatever was stored before; for the decimal text of an integer `n` (possibly followed by non-digits) that is `n` |
| `AbstractRequest.Endpoint` | src/Message/AbstractRequest.php:274-277 | The sandbox URL if and only if test mode is truthy, the live URL otherwise |
| `AbstractRequest.EndpointIgnoresSandbox` | src/Message/AbstractRequest.php:274-277 | Changing the `sandbox` parameter never changes the endpoint |
| `AbstractRequest.PayloadFor` | src/Message/AbstractRequest.php:234-258 | A transaction can be built unless the data says there is a card and the request holds no card object |
| `AbstractRequest.PayloadCopiesRequestFields` | src/Message/AbstractRequest.php:220-232 | In every branch, sandbox, test mode, key, pin, command, invoice, amount and description are copied unchanged; `addcustomer` and `schedule` are the lookups; `numleft` is the stored count; `start` is `next` |
| `AbstractRequest.CardBranch` | src/Message/AbstractRequest.php:234-252 | With card data, the card can be read back field for field from the transaction, and no `refnum` is sent |
| `AbstractRequest.StoredCardBranch` | src/Message/AbstractRequest.php:253-255 | Without card data but with a truthy card reference, `card` is the reference, `exp` is `0000`, and no other card field and no `refnum` is set |
| `AbstractRequest.PriorTransactionBranch` | src/Message/AbstractRequest.php:256-258 | Otherwise `refnum` is the transaction reference and no card field is set; the transaction is built even when that reference is null |
| `AbstractRequest.Classify` | src/Message/AbstractRequest.php:260-264 | Success if and only if the gateway's result is exactly `true`; otherwise an error carrying the gateway's error text |
| `AbstractRequest.WriteCard` | src/Message/AbstractRequest.php:235-252 | Writes the 17 card and billing properties from the card's getters, leaves the other payload properties as they were, and changes nothing else on the transaction (its `error` and `rawresult` are outside the frame) |
| `AbstractRequest.Request.constructor` | src/Message/AbstractRequest.php:23-39 | A new request has an empty bag, no response and the concrete request's command; the invariant holds |
| `AbstractRequest.Request.SetParameter` | src/Message/AbstractRequest.php:48 | Omnipay's `setParameter`: before a response exists it stores the value under the key and nothing else changes; once the request holds a response it fails with `Request cannot be modified after it has been sent!` and the bag is unchanged |
| `AbstractRequest.Request.SetSandbox` | src/Message/AbstractRequest.php:46-49 | Stores the value under `sandbox` and nothing else changes; after a response, fails with the `setParameter` message and changes nothing |
| `AbstractRequest.Request.SetSource` | src/Message/AbstractRequest.php:56-59 | Stores the value under `source` and nothing else changes; after a response, fails with the `setParameter` message and changes nothing |
| `AbstractRequest.Request.SetPin` | src/Message/AbstractRequest.php:66-69 | Stores the value under `pin` and nothing else changes; after a response, fails with the `setParameter` message and changes nothing |
| `AbstractRequest.Request.SetInvoice` | src/Message/AbstractRequest.php:76-79 | Stores the value under `invoice` and nothing else changes; after a response, fails with the `setParameter` message and changes nothing |
| `AbstractRequest.Request.SetDescription` | src/Message/AbstractRequest.php:86-89 | Stores the value under `description` and nothing else changes; after a response, fails with the `setParameter` message and changes nothing |
| `AbstractRequest.Request.SetAddCustomer` | src/Message/AbstractRequest.php:100-103 | Stores the value under `addCustomer` and nothing else changes; after a response, fails with the `setParameter` message and changes nothing |
| `AbstractRequest.Request.SetInterval` | src/Message/AbstractRequest.php:112-123 | A value that is not allowed fails with `Interval not in list of allowed values.`; an allowed one is stored normalised, unless the request already holds a response, when it fails with the `setParameter` message; on failure the bag is unchanged; the invariant holds either way |
| `AbstractRequest.Request.SetIntervalCount` | src/Message/AbstractRequest.php:130-133 | Stores the integer cast of the value under `intervalCount`, so that `getIntervalCount` returns it, and nothing else changes; after a response, fails with the `setParameter` message and changes nothing |
| `AbstractRequest.Request.WriteRequestFields` | src/Message/AbstractRequest.php:220-232 | A fresh transaction ends up with exactly the request fields of `PayloadFor`; only its payload properties are written |
| `AbstractRequest.Request.SendData` | src/Message/AbstractRequest.php:220-271 | The outcome is the specification's outcome: the gateway sees `PayloadFor`'s transaction, and the response is replaced only on success |
| `UmTransaction.Transaction.constructor` | src/Message/AbstractRequest.php:220 | A new transaction has no property written |
| `UmTransaction.Transaction.Process` | src/Message/AbstractRequest.php:260 | The gateway's reply to the written fields is returned and its error text and raw result are left on the object; the written fields are unchanged |

## Left out

- `umTransaction::Process()` belongs to a gateway library that is not part of this model. It is an oracle parameter, a function of the written fields. Transport failures inside it are not modelled.
- `AbstractRequest.Request.SendData`: on success the model stores the gateway's raw result as the response. Parsing it and building the `Response` object (lines 266-271) are calls into Guzzle and the response class, which are not part of this model. Line 266 also names `GuzzleHttp\Message\MessageFactory` without a leading backslash, so PHP looks for it inside this file's namespace. The model assumes the global class was meant.
- `AbstractRequest.Request.SetInterval`: compares the value with the table's keys strictly. PHP's loose `in_array` also accepts the boolean `true` (it equals any non-empty string) and stores it, and `getInterval` then finds no entry for it. The model rejects `true`.
- `PhpValues.IntCast`: floats, arrays, exponent strings such as `"1e3"` (1000 in PHP 7.1 and later, 1 here) and 64-bit overflow are not modelled; integers are unbounded.
- `PhpValues.IntCastOfNumericPrefix`: holds for the modelled cast. When the text after the digits starts with `e`, `E` or `.` followed by digits (as in `"5e3"`), PHP 7.1 and later read it as part of the number; that case is not modelled.
- `AbstractRequest.Request.SetParameter`: refuses the `interval` and `intervalCount` keys. It stands for Omnipay's own setters, which never write those keys; only the validating setters do. It also stores the value unchanged for every key, whereas Omnipay's `setCard` wraps a truthy value that is not a `CreditCard` (an array of card data) into a new `CreditCard`; arrays are not modelled, so that wrapping is not either.
- `UmTransaction.Transaction`: the library's own default property values are not modelled; a property the request does not write reads as null. The properties are kept in one record field, so writing one property replaces one component of it.
- Omnipay's `CreditCard` getters, including the `getExpiryDate('my')` formatting, are not part of this model. The card is a record of their results, copied through unchanged.
- `getCommand()` and `getData()` are abstract (lines 37-39). The command is fixed when a request is made, and the data is a bag passed to `SendData`.
- `SendOutcome.CardUnavailable` stands for the PHP error raised when `$data['card']` is set but the request holds no card object. The model does not capture the partly built transaction left behind.
- The commented-out HTTP client and mock path (lines 150-219) is dead code. `getHttpMethod` (the constant `POST`) is used only there.
- `src/SoapGateway.php` (gateway factory and default parameters) and `src/Message/Soap/GetCustomerResponse.php` (a constant `isSuccessful` and property reads) are not part of this model.
