/**
 * The two handlers of the payment controller: starting a hosted-page
 * payment with the gateway, and reconciling the gateway's server-to-server
 * callback against the Payment and Lead collections.
 *
 * The gateway's checksum library is not modelled: its two operations are
 * passed in as `sign(params, key)` and `verify(params, key, checksum)`.
 */
module PaymentController {
  import opened Wrappers
  import opened Fields
  import opened Decimal
  import opened Records

  /** The settings the handlers read from the environment. */
  datatype Config = Config(
    merchantId: string,
    website: string,
    industryType: string,
    channelId: string,
    merchantKey: string,
    callbackUrl: string,
    transactionUrl: string)

  type Signer = (Fields, string) -> string
  type Verifier = (Fields, string, Option<string>) -> bool

  const ChecksumKey := "CHECKSUMHASH"

  // ---------------------------------------------------------------------
  // Initiation
  // ---------------------------------------------------------------------

  /** Largest value of the random draw: `Math.random() * 90000` floored stays below 90000. */
  const MaxDraw := 89999

  /** The order id `"ORDER" + Math.floor(10000 + Math.random() * 90000)`, given the floored draw. */
  function OrderId(draw: nat): (id: string)
    requires draw <= MaxDraw
    ensures |id| == 10 && id[..5] == "ORDER"
    ensures AllDigits(id[5..]) && 10000 <= Value(id[5..]) <= 99999
    ensures Value(id[5..]) == 10000 + draw
  {
    TextLength(10000 + draw, 4);
    ValueOfText(10000 + draw);
    var id := "ORDER" + Text(10000 + draw);
    assert id[5..] == Text(10000 + draw);
    id
  }

  /** Two draws give the same order id only if they are the same draw. */
  lemma OrderIdInjective(d1: nat, d2: nat)
    requires d1 <= MaxDraw && d2 <= MaxDraw
    requires OrderId(d1) == OrderId(d2)
    ensures d1 == d2
  {
  }

  /** The eight gateway parameters, in the order the handler writes them. */
  function GatewayParams(cfg: Config, orderId: string, customerId: string, amount: string): (r: Fields)
    ensures |r| == 8
    ensures r[4] == Field("ORDER_ID", orderId) && r[5] == Field("CUST_ID", customerId)
    ensures r[6] == Field("TXN_AMOUNT", amount)
    ensures Lookup(r, ChecksumKey) == None
  {
    [ Field("MID", cfg.merchantId),
      Field("WEBSITE", cfg.website),
      Field("INDUSTRY_TYPE_ID", cfg.industryType),
      Field("CHANNEL_ID", cfg.channelId),
      Field("ORDER_ID", orderId),
      Field("CUST_ID", customerId),
      Field("TXN_AMOUNT", amount),
      Field("CALLBACK_URL", cfg.callbackUrl) ]
  }

  /**
   * The parameter object once the checksum is added: the eight parameters
   * followed by `CHECKSUMHASH`, whose value signs exactly those eight.
   */
  function SignedParams(cfg: Config, sign: Signer, orderId: string, customerId: string, amount: string): (r: Fields)
    ensures |r| == 9
    ensures r[..8] == GatewayParams(cfg, orderId, customerId, amount)
    ensures r[8] == Field(ChecksumKey, sign(r[..8], cfg.merchantKey))
  {
    var params := GatewayParams(cfg, orderId, customerId, amount);
    var r := params + [Field(ChecksumKey, sign(params, cfg.merchantKey))];
    assert r[..8] == params;
    r
  }

  /** The signed parameter object has exactly the eight gateway keys, in order, then `CHECKSUMHASH`. */
  lemma SignedParamsKeys(cfg: Config, sign: Signer, orderId: string, customerId: string, amount: string)
    ensures Keys(SignedParams(cfg, sign, orderId, customerId, amount))
      == ["MID", "WEBSITE", "INDUSTRY_TYPE_ID", "CHANNEL_ID",
          "ORDER_ID", "CUST_ID", "TXN_AMOUNT", "CALLBACK_URL", ChecksumKey]
  {
    var r := SignedParams(cfg, sign, orderId, customerId, amount);
    assert r == GatewayParams(cfg, orderId, customerId, amount) + [r[8]];
  }

  /** Reading the signed parameters back gives the order, customer, amount and checksum put in. */
  lemma SignedParamsCarry(cfg: Config, sign: Signer, orderId: string, customerId: string, amount: string)
    ensures var r := SignedParams(cfg, sign, orderId, customerId, amount);
      && Lookup(r, "ORDER_ID") == Some(orderId)
      && Lookup(r, "CUST_ID") == Some(customerId)
      && Lookup(r, "TXN_AMOUNT") == Some(amount)
      && Lookup(r, ChecksumKey) == Some(sign(GatewayParams(cfg, orderId, customerId, amount), cfg.merchantKey))
  {
    var r := SignedParams(cfg, sign, orderId, customerId, amount);
    var params := GatewayParams(cfg, orderId, customerId, amount);
    assert r == params + [r[8]];
    assert r == Assign(params, ChecksumKey, sign(params, cfg.merchantKey));
    GatewayParamsCarry(cfg, orderId, customerId, amount);
  }

  /** Reading the eight gateway parameters back gives the order, customer and amount put in. */
  lemma GatewayParamsCarry(cfg: Config, orderId: string, customerId: string, amount: string)
    ensures var params := GatewayParams(cfg, orderId, customerId, amount);
      && Lookup(params, "ORDER_ID") == Some(orderId)
      && Lookup(params, "CUST_ID") == Some(customerId)
      && Lookup(params, "TXN_AMOUNT") == Some(amount)
  {
    var params := GatewayParams(cfg, orderId, customerId, amount);
    LookupAt(params, 4);
    LookupAt(params, 5);
    LookupAt(params, 6);
  }

  /** One `<input type="hidden" name=... value=...>` element of the redirect form. */
  datatype HiddenInput = HiddenInput(name: string, value: string)

  /** The form's inputs: one per parameter, in the parameter object's order. */
  function HiddenInputs(params: Fields): (inputs: seq<HiddenInput>)
    ensures |inputs| == |params|
    ensures forall i :: 0 <= i < |params| ==>
      inputs[i].name == params[i].key && inputs[i].value == params[i].value
  {
    if params == [] then []
    else [HiddenInput(params[0].key, params[0].value)] + HiddenInputs(params[1..])
  }

  /** What the initiation handler answers. */
  datatype InitReply =
    | RedirectForm(action: string, inputs: seq<HiddenInput>)
    | Rejected(code: int, message: string)

  const MissingInputReply := Rejected(400, "Customer ID and amount are required.")

  /** The document saved at initiation: order, customer and amount, and no transaction fields. */
  function NewPayment(orderId: string, customerId: string, amount: string): (p: Payment)
    ensures p.orderId == orderId && p.customerId == customerId && p.amount == Some(amount)
    ensures p.transactionId.None? && p.paymentStatus.None?
    ensures p.paymentMode.None? && p.transactionDate.None?
  {
    Payment(orderId, customerId, Some(amount), None, None, None, None)
  }

  /**
   * `initiatePayment`: checks the request, signs the gateway parameters,
   * saves a Payment without any transaction fields, and answers with a form
   * that posts every parameter, the checksum included, to the gateway.
   */
  method InitiatePayment(payments: Collection<Payment>, cfg: Config, sign: Signer,
                         customerId: Option<string>, amount: Option<string>, draw: nat)
    returns (reply: InitReply)
    requires draw <= MaxDraw
    modifies payments
    ensures !(Truthy(customerId) && Truthy(amount)) ==>
      reply == MissingInputReply && payments.records == old(payments.records)
    ensures Truthy(customerId) && Truthy(amount) ==>
      && payments.records == old(payments.records) + [NewPayment(OrderId(draw), customerId.value, amount.value)]
      && reply == RedirectForm(cfg.transactionUrl,
                               HiddenInputs(SignedParams(cfg, sign, OrderId(draw), customerId.value, amount.value)))
  {
    if !Truthy(customerId) || !Truthy(amount) {
      return MissingInputReply;
    }
    var orderId := OrderId(draw);
    var params := GatewayParams(cfg, orderId, customerId.value, amount.value);
    params := Assign(params, ChecksumKey, sign(params, cfg.merchantKey));
    payments.Save(NewPayment(orderId, customerId.value, amount.value));
    reply := RedirectForm(cfg.transactionUrl, HiddenInputs(params));
  }

  // ---------------------------------------------------------------------
  // Callback
  // ---------------------------------------------------------------------

  /** The outcome fields of a callback that are copied into the Payment. */
  datatype GatewayReport = GatewayReport(
    transactionId: Option<string>,
    amount: Option<string>,
    status: Option<string>,
    paymentMode: Option<string>,
    transactionDate: Option<string>)

  /** The fields the handler destructures from the callback body. */
  function ReportOf(body: Fields): (r: GatewayReport)
    ensures r.transactionId == Lookup(body, "TXNID") && r.amount == Lookup(body, "TXNAMOUNT")
    ensures r.status == Lookup(body, "STATUS") && r.paymentMode == Lookup(body, "PAYMENTMODE")
    ensures r.transactionDate == Lookup(body, "TXNDATE")
  {
    GatewayReport(Lookup(body, "TXNID"), Lookup(body, "TXNAMOUNT"), Lookup(body, "STATUS"),
                  Lookup(body, "PAYMENTMODE"), Lookup(body, "TXNDATE"))
  }

  /** Removing the checksum does not change the fields the handler reads afterwards. */
  lemma ReportWithoutChecksum(body: Fields)
    ensures ReportOf(Delete(body, ChecksumKey)) == ReportOf(body)
  {
  }

  /** The order id of a callback: `ORDERID` when it is truthy, `orderId` otherwise. */
  function ResolvedOrderId(body: Fields): (r: Option<string>)
    ensures Truthy(Lookup(body, "ORDERID")) ==> r == Lookup(body, "ORDERID")
    ensures !Truthy(Lookup(body, "ORDERID")) ==> r == Lookup(body, "orderId")
    ensures Truthy(r) <==> Truthy(Lookup(body, "ORDERID")) || Truthy(Lookup(body, "orderId"))
  {
    Or(Lookup(body, "ORDERID"), Lookup(body, "orderId"))
  }

  /** The Payment update: the five transaction fields take the reported values, as received. */
  function ApplyReport(p: Payment, report: GatewayReport): (q: Payment)
    ensures q.orderId == p.orderId && q.customerId == p.customerId
    ensures q.paymentStatus == report.status && q.transactionId == report.transactionId
    ensures q.amount == report.amount && q.paymentMode == report.paymentMode
    ensures q.transactionDate == report.transactionDate
  {
    p.(transactionId := report.transactionId, amount := report.amount, paymentStatus := report.status,
       paymentMode := report.paymentMode, transactionDate := report.transactionDate)
  }

  /**
   * The update object handed to `findOneAndUpdate`: it keeps the order id,
   * and applying it a second time changes nothing more.
   */
  function PaymentUpdate(report: GatewayReport): (f: Payment -> Payment)
    ensures forall p :: f(p).orderId == p.orderId && f(p).paymentStatus == report.status
    ensures forall p :: f(f(p)) == f(p)
  {
    (p: Payment) => ApplyReport(p, report)
  }

  /** The Lead update: only `paymentStatus` changes. */
  function LeadUpdate(status: Option<string>): (f: Lead -> Lead)
    ensures forall l :: f(l).paymentStatus == status && f(l).orderId == l.orderId && f(l).details == l.details
  {
    (l: Lead) => l.(paymentStatus := status)
  }

  /** The JSON answer of the callback handler. */
  datatype Reply = Reply(code: int, success: bool, message: string)

  const InvalidRequestReply := Reply(400, false, "Invalid callback request.")
  const InvalidChecksumReply := Reply(400, false, "Invalid checksum")
  const InvalidResponseReply := Reply(400, false, "Invalid payment response.")
  const PaymentNotFoundReply := Reply(404, false, "Payment not found.")

  function UpdatedReply(orderId: string, status: string): (r: Reply)
    ensures r.code == 200 && r.success
    ensures |r.message| >= |status| && r.message[|r.message| - |status|..] == status
  {
    Reply(200, true, "Payment status updated successfully. orderId: " + orderId + ", Status: " + status)
  }

  /** A missing body, or one with no properties. */
  predicate EmptyBody(body: Option<Fields>)
    ensures EmptyBody(body) <==> body == None || body == Some([])
  {
    body.None? || |Keys(body.value)| == 0
  }

  /** The signature check, made on the body as received, `CHECKSUMHASH` included. */
  predicate ChecksumValid(body: Fields, merchantKey: string, verify: Verifier)
    ensures ChecksumValid(body, merchantKey, verify) == verify(body, merchantKey, Lookup(body, ChecksumKey))
  {
    verify(body, merchantKey, Lookup(body, ChecksumKey))
  }

  /** A body that passes every check before the store is touched. */
  predicate Accepted(body: Option<Fields>, merchantKey: string, verify: Verifier)
    ensures Accepted(body, merchantKey, verify) ==>
      body.Some? && Lookup(body.value, "STATUS").Some? && Lookup(body.value, "STATUS").value != ""
    ensures Accepted(body, merchantKey, verify) ==>
      verify(body.value, merchantKey, Lookup(body.value, ChecksumKey)) && |Keys(body.value)| > 0
  {
    && !EmptyBody(body)
    && ChecksumValid(body.value, merchantKey, verify)
    && Truthy(ResolvedOrderId(body.value))
    && Truthy(Lookup(body.value, "STATUS"))
  }

  /**
   * `paymentCallback`: rejects an empty body, then a body whose signature
   * does not verify, then one without an order id or a status; otherwise
   * updates the first Payment with that order id (answering 404 when there
   * is none) and then the first Lead with it (a missing Lead is not an
   * error).
   */
  method PaymentCallback(payments: Collection<Payment>, leads: Collection<Lead>,
                         merchantKey: string, verify: Verifier, body: Option<Fields>)
    returns (reply: Reply)
    modifies payments, leads
    ensures EmptyBody(body) ==> reply == InvalidRequestReply
    ensures !EmptyBody(body) && !ChecksumValid(body.value, merchantKey, verify) ==>
      reply == InvalidChecksumReply
    ensures !EmptyBody(body) && ChecksumValid(body.value, merchantKey, verify) && !Accepted(body, merchantKey, verify) ==>
      reply == InvalidResponseReply
    ensures reply.code != 200 ==>
      payments.records == old(payments.records) && leads.records == old(leads.records)
    ensures Accepted(body, merchantKey, verify) ==>
      var orderId := ResolvedOrderId(body.value).value;
      var report := ReportOf(body.value);
      if FirstMatch(old(payments.records), PaymentOrderId, orderId).None? then
        reply == PaymentNotFoundReply
      else
        && reply == UpdatedReply(orderId, report.status.value)
        && payments.records == UpdateFirst(old(payments.records), PaymentOrderId, orderId, PaymentUpdate(report))
        && leads.records == UpdateFirst(old(leads.records), LeadOrderId, orderId, LeadUpdate(report.status))
  {
    if body.None? || |Keys(body.value)| == 0 {
      return InvalidRequestReply;
    }
    var response := body.value;
    var receivedChecksum := Lookup(response, ChecksumKey);
    var isValidChecksum := verify(response, merchantKey, receivedChecksum);
    if !isValidChecksum {
      return InvalidChecksumReply;
    }
    var orderId := Or(Lookup(response, "ORDERID"), Lookup(response, "orderId"));
    response := Delete(response, ChecksumKey);
    var report := GatewayReport(Lookup(response, "TXNID"), Lookup(response, "TXNAMOUNT"),
                                Lookup(response, "STATUS"), Lookup(response, "PAYMENTMODE"),
                                Lookup(response, "TXNDATE"));
    ReportWithoutChecksum(body.value);
    assert report == ReportOf(body.value);
    if !Truthy(orderId) || !Truthy(report.status) {
      return InvalidResponseReply;
    }
    var updatedPayment := payments.FindOneAndUpdate(PaymentOrderId, orderId.value, PaymentUpdate(report));
    if updatedPayment.None? {
      return PaymentNotFoundReply;
    }
    var updatedLead := leads.FindOneAndUpdate(LeadOrderId, orderId.value, LeadUpdate(report.status));
    reply := UpdatedReply(orderId.value, report.status.value);
  }

  /**
   * What an accepted callback does to the two collections: in the first
   * Payment with the order id, the status becomes the reported one as
   * received and the order and customer stay; in the first Lead with it,
   * only the status changes; no other document changes, and a collection
   * with no match is left as it was.
   */
  lemma ReconciledDocuments(payments: seq<Payment>, leads: seq<Lead>, orderId: string, report: GatewayReport)
    ensures var ps := UpdateFirst(payments, PaymentOrderId, orderId, PaymentUpdate(report));
      && |ps| == |payments|
      && (forall j :: 0 <= j < |ps| ==> ps[j].orderId == payments[j].orderId && ps[j].customerId == payments[j].customerId)
      && match FirstMatch(payments, PaymentOrderId, orderId)
         case None => ps == payments
         case Some(i) =>
           && ps[i].paymentStatus == report.status
           && ps[i] == ApplyReport(payments[i], report)
           && forall j :: 0 <= j < |ps| && j != i ==> ps[j] == payments[j]
    ensures var ls := UpdateFirst(leads, LeadOrderId, orderId, LeadUpdate(report.status));
      && |ls| == |leads|
      && match FirstMatch(leads, LeadOrderId, orderId)
         case None => ls == leads
         case Some(i) =>
           && ls[i] == leads[i].(paymentStatus := report.status)
           && forall j :: 0 <= j < |ls| && j != i ==> ls[j] == leads[j]
  {
  }

  /**
   * The gateway re-sending the same accepted callback leaves both
   * collections as the first delivery left them.
   */
  lemma RedeliveryIdempotent(payments: seq<Payment>, leads: seq<Lead>, orderId: string, report: GatewayReport)
    ensures var ps := UpdateFirst(payments, PaymentOrderId, orderId, PaymentUpdate(report));
      UpdateFirst(ps, PaymentOrderId, orderId, PaymentUpdate(report)) == ps
    ensures var ls := UpdateFirst(leads, LeadOrderId, orderId, LeadUpdate(report.status));
      UpdateFirst(ls, LeadOrderId, orderId, LeadUpdate(report.status)) == ls
  {
    UpdateFirstIdempotent(payments, PaymentOrderId, orderId, PaymentUpdate(report));
    UpdateFirstIdempotent(leads, LeadOrderId, orderId, LeadUpdate(report.status));
  }

  /** The redirect form posts the amount given and the checksum of the eight parameters. */
  lemma RedirectFormCarriesChecksum(cfg: Config, sign: Signer, orderId: string, customerId: string, amount: string)
    ensures var inputs := HiddenInputs(SignedParams(cfg, sign, orderId, customerId, amount));
      && |inputs| == 9
      && inputs[4] == HiddenInput("ORDER_ID", orderId)
      && inputs[6] == HiddenInput("TXN_AMOUNT", amount)
      && inputs[8] == HiddenInput(ChecksumKey, sign(GatewayParams(cfg, orderId, customerId, amount), cfg.merchantKey))
  {
  }
}
