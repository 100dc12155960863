# Payment reconciliation model

A Dafny model of the payment controller of a lead-management backend. The
controller has two HTTP handlers:

- `initiatePayment` starts a payment on the gateway's hosted page. It checks
  that the request carries a customer id and an amount. It draws an order id
  `"ORDER"` + a number from 10000 to 99999, builds the eight gateway
  parameters and adds their `CHECKSUMHASH`. It saves a Payment document with
  no transaction fields yet, and answers with a form that has one hidden
  input per parameter and posts itself to the gateway.
- `paymentCallback` reconciles the gateway's server-to-server callback. It
  runs its checks in a fixed order, and every rejection answers before any
  store is touched:
  1. an empty body gives 400;
  2. a signature that does not verify gives 400 (the check runs on the body
     as received, `CHECKSUMHASH` included);
  3. a missing order id (`ORDERID`, else `orderId`) or a missing `STATUS`
     gives 400.

  It then updates the first Payment with that order id. There is no
  transaction state machine: the gateway's status string is stored exactly
  as received. If no Payment matches, the answer is 404 and the Lead
  collection is left alone. Otherwise the first Lead with that order id gets
  the same status. A missing Lead is not an error, and the answer is 200.

Files:

- `wrappers.dfy` (module `Wrappers`) holds `Option` and the JavaScript
  truthiness of an optional string, with `a || b`.
- `fields.dfy` (module `Fields`) models a plain JavaScript object of string
  properties as an insertion-ordered list of entries. It provides property
  read, assignment and `delete`.
- `decimal.dfy` (module `Decimal`) holds the decimal text of a whole number,
  which is how the order id's number is written.
- `records.dfy` (module `Records`) holds the Payment and Lead documents and
  a `Collection` class for one store collection, with `save`, the
  first-match scan and `findOneAndUpdate`. Order ids are not unique, so an
  update changes the first document that matches.
- `payment_controller.dfy` (module `PaymentController`) holds the two
  handlers and the lemmas about them.

The gateway's checksum library is passed in as two functions:
`sign(params, key)` and `verify(params, key, checksum)`. The random draw is a
parameter `draw` between 0 and 89999: the order id's number is
`10000 + draw`. The environment settings are a `Config` value of strings. The
redirect form is its list of hidden inputs.

Two details of the code that the model keeps:

- The callback answers 400 when either the order id or `STATUS` is missing
  (`!orderId || !STATUS`, line 89).
- The order id's number can be any value from 10000 to 99999 (line 15).

## Model

| member | source | states |
|---|---|---|
| `Wrappers.Truthy` | src/controllers/paymentController.js:11 | an optional string is truthy exactly when it is present and not "", the test `!x` negates at lines 11, 64 and 89 |
| `Wrappers.Or` | src/controllers/paymentController.js:79 | the `or` of two values picks the first when it is truthy and the second otherwise; the result is truthy exactly when one of them is |
| `Fields.Keys` | src/controllers/paymentController.js:64 | `Object.keys`: the keys in entry order, one per entry |
| `Fields.Lookup` | src/controllers/paymentController.js:85 | reading a property yields nothing exactly when no entry has that key |
| `Fields.Assign` | src/controllers/paymentController.js:29 | after `d[k] = v`, reading `k` gives `v`, every other key reads as before, and a new key is added at the end |
| `Fields.Delete` | src/controllers/paymentController.js:82 | after `delete d[k]`, `k` is absent, every other key reads as before, and the other entries are kept |
| `Decimal.Text` | src/controllers/paymentController.js:15 | the text of a number is a non-empty run of digits with no leading zero |
| `Decimal.ValueOfText` | src/controllers/paymentController.js:15 | reading the text of `n` back gives `n` |
| `Decimal.TextLength` | src/controllers/paymentController.js:15 | a number in [10^k, 10^(k+1)) is written with exactly k + 1 digits |
| `Decimal.TextInjective` | src/controllers/paymentController.js:15 | different numbers have different texts |
| `PaymentController.OrderId` | src/controllers/paymentController.js:15 | the order id is "ORDER" followed by five digits whose value is 10000 + draw, between 10000 and 99999 |
| `PaymentController.OrderIdInjective` | src/controllers/paymentController.js:15 | different draws give different order ids |
| `PaymentController.GatewayParams` | src/controllers/paymentController.js:18-27 | the eight parameters, with `ORDER_ID`, `CUST_ID` and `TXN_AMOUNT` at positions 4 to 6 carrying the order id, customer id and amount, and no `CHECKSUMHASH` among them |
| `PaymentController.GatewayParamsCarry` | src/controllers/paymentController.js:18-27 | reading `ORDER_ID`, `CUST_ID` and `TXN_AMOUNT` from the eight parameters gives the order id, customer id and amount |
| `PaymentController.SignedParams` | src/controllers/paymentController.js:18-29 | the parameter object has nine entries: the eight gateway parameters, then `CHECKSUMHASH` whose value is `sign` of exactly those eight with the merchant key |
| `PaymentController.SignedParamsKeys` | src/controllers/paymentController.js:18-29 | the keys of the signed object are exactly the eight gateway keys, in source order, then `CHECKSUMHASH` |
| `PaymentController.SignedParamsCarry` | src/controllers/paymentController.js:18-29 | `ORDER_ID`, `CUST_ID` and `TXN_AMOUNT` read back as the order id, customer id and amount, and `CHECKSUMHASH` reads back as the signature of the eight parameters |
| `PaymentController.HiddenInputs` | src/controllers/paymentController.js:43-45 | the form has one hidden input per parameter entry, in the object's order, with that entry's key as name and its value as value |
| `PaymentController.RedirectFormCarriesChecksum` | src/controllers/paymentController.js:43-45 | the form has nine inputs: `ORDER_ID` carries the order id, `TXN_AMOUNT` the amount, and the last input is `CHECKSUMHASH` with the signature of the eight parameters |
| `PaymentController.NewPayment` | src/controllers/paymentController.js:32 | the saved document has the order id, customer id and amount, and no transaction id, status, mode or date |
| `PaymentController.InitiatePayment` | src/controllers/paymentController.js:10-51 | a falsy customer id or amount gives 400 and saves nothing; otherwise exactly one Payment `{orderId, customerId, amount}` with no transaction fields is appended, earlier documents stay, and the reply is the form for the signed parameters posting to the transaction URL |
| `PaymentController.EmptyBody` | src/controllers/paymentController.js:64 | a body is empty when it is missing or `Object.keys` of it has length 0, that is exactly when it is absent or has no entries |
| `PaymentController.ChecksumValid` | src/controllers/paymentController.js:70-71 | the signature check is `verify` applied to the body as received, `CHECKSUMHASH` included, with the merchant key and the `CHECKSUMHASH` read from that body |
| `PaymentController.ResolvedOrderId` | src/controllers/paymentController.js:79 | the order id is `ORDERID` when that is truthy and `orderId` otherwise; it is truthy exactly when one of the two is |
| `PaymentController.ReportOf` | src/controllers/paymentController.js:85 | the reported transaction id, amount, status, mode and date are the body's `TXNID`, `TXNAMOUNT`, `STATUS`, `PAYMENTMODE` and `TXNDATE`, absent where the body lacks them |
| `PaymentController.Accepted` | src/controllers/paymentController.js:64-92 | a body passes all three checks (non-empty, signature verifies on the full body, truthy order id and `STATUS`); an accepted body has a non-empty `STATUS` and at least one key, and `verify` accepted it with its own `CHECKSUMHASH` |
| `PaymentController.ReportWithoutChecksum` | src/controllers/paymentController.js:82-85 | deleting `CHECKSUMHASH` does not change any of the fields the handler reads afterwards |
| `PaymentController.ApplyReport` | src/controllers/paymentController.js:97-103 | the Payment update keeps the order and customer ids and sets the status, transaction id, amount, mode and date to the reported values, absent ones included |
| `PaymentController.PaymentUpdate` | src/controllers/paymentController.js:97-103 | the update object passed to `findOneAndUpdate` sets the status to the reported one, keeps the order id, and is idempotent |
| `PaymentController.LeadUpdate` | src/controllers/paymentController.js:115 | the Lead update sets `paymentStatus` to the reported status and keeps the order id and every other field |
| `PaymentController.UpdatedReply` | src/controllers/paymentController.js:126-129 | the success answer has code 200, `success` true, and a message that ends with the reported status |
| `PaymentController.PaymentCallback` | src/controllers/paymentController.js:62-129 | checks in order (empty body, then signature on the full body, then order id and status); every rejection and the 404 leave both collections unchanged; an accepted callback with a matching Payment updates the first matching Payment and the first matching Lead and answers 200 with the order id and status |
| `PaymentController.ReconciledDocuments` | src/controllers/paymentController.js:95-121 | in the first matching Payment the status becomes the one reported, verbatim, with order and customer kept; in the first matching Lead only the status changes; no other document changes; no Lead match leaves the Leads unchanged |
| `PaymentController.RedeliveryIdempotent` | src/controllers/paymentController.js:95-117 | applying the same callback's updates a second time leaves both collections as the first delivery left them |
| `Records.FirstMatch` | src/controllers/paymentController.js:95-96 | the index found has the order id, and no earlier document does; no index means no document has it |
| `Records.UpdateFirst` | src/controllers/paymentController.js:95-105 | `findOneAndUpdate` rewrites the first matching document alone, keeps the length, and changes nothing when no document matches |
| `Records.UpdateFirstIdempotent` | src/controllers/paymentController.js:113-117 | an update that keeps the key and is idempotent gives the same collection when applied twice as once |
| `Records.Collection.Save` | src/controllers/paymentController.js:32 | saving appends the document after the existing ones |
| `Records.Collection.FindFirst` | src/controllers/paymentController.js:95-96 | the scan returns the position of the first document with the order id, or nothing |
| `Records.Collection.FindOneAndUpdate` | src/controllers/paymentController.js:95-110 | the collection becomes `UpdateFirst` of the old one; the returned document is the updated one, and nothing is returned exactly when no document matches |

## Left out

- The catch-all 500 answers of both handlers are left out. A failing store call or checksum call is not modelled.
- Logging through `console` is left out.
- The HTML text of the redirect page is not modelled. The form is its action URL and its list of hidden inputs. The values are interpolated into the HTML without escaping, and the model does not capture that.
- The settings are read from the environment, and the model treats them as given strings. An unset variable (`undefined`) is not modelled.
- Request values are modelled as optional strings, and falsy means absent or "". Numbers, booleans and `null` in the JSON body are not modelled.
- The checksum library is two function parameters. The signing algorithm is not modelled. The model assumes `generatePaytmChecksum` returns its signature synchronously, as line 29 uses it without `await`; the helper that defines it is not part of this model. Line 71 does `await` the sister call `verifyPaytmChecksum`, so the helper may well be asynchronous; if it is, `CHECKSUMHASH` holds a Promise and the form posts `[object Promise]` as the checksum, which the model does not capture.
- `Math.random` and floating point are not modelled. The handler's `Math.floor(10000 + Math.random() * 90000)` is taken as `10000 + draw` with `draw` in [0, 89999]. Order-id collisions between concurrent requests are not modelled.
- Mongoose and MongoDB are not modelled: no schema casting, no defaults, and no handling of `undefined` update fields. Reported fields are stored as given, absent ones as absent.
- Concurrency and `async`/`await` interleavings are not modelled. So is the missing atomicity between the Payment update and the Lead update.
- `RESPMSG` is destructured by the handler but never used, so the model does not read it.
- The `delete` on line 82 also mutates the caller's `req.body`. The model works on a local copy, so that aliasing is not captured.
- JavaScript puts integer-like property keys before the others. The model keeps plain insertion order, which is the same for every key this controller uses.
- The HTTP JSON body of the initiation's 400 answer has no `success` field. The model keeps only its status code and message.
- src/models/Comment.js is not part of this model. It is a schema plus locale-dependent date formatting.
- Payment.js, Lead.js and utils/helperFunc.js are not part of this model. The Lead document keeps its fields other than `orderId` and `paymentStatus` as an opaque `details` list.
