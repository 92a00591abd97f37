/** The two views that settle a payment: the status view a browser polls
    after checkout, and the webhook the gateway calls with the payment
    outcome.  The store behind them holds carts, the gateway transactions
    recorded so far and the first paid invoice of each cart; the audit log is
    append-only.  The payments core's collaborators (`get_cart`,
    `handle_payment`, `create_invoice`, `fulfill_cart`) are modelled by what
    they are observed to do: a cart lookup by key, a payment recorder that
    refuses a gateway transaction id it already holds, and outcomes chosen by
    the caller for invoicing and fulfilment. */
module Views {

  import opened PyValues
  import opened Text
  import opened Audit
  import Client

  /** The processor's gateway slug. */
  const Slug: string := "hyperpay"

  /** The cart statuses the views test for. */
  const Processing: string := "processing"
  const Paid: string := "paid"

  // ---------------------------------------------------------------------
  // Merchant references

  /** A merchant reference is three dash-separated segments; the last one
      names the cart (and the middle one the site). */
  function ParseReference(reference: string): (r: Option<(string, string, string)>)
    ensures r.Some? <==> Count(reference, '-') == 2
    ensures r.Some? ==> reference == r.value.0 + "-" + r.value.1 + "-" + r.value.2
    ensures r.Some? ==> '-' !in r.value.0 && '-' !in r.value.1 && '-' !in r.value.2
  {
    var parts := Split(reference, '-');
    SplitCount(reference, '-');
    JoinSplit(reference, '-');
    SplitPiecesFree(reference, '-');
    if |parts| == 3 then
      assert parts == [parts[0], parts[1], parts[2]];
      JoinThree(parts[0], parts[1], parts[2]);
      Some((parts[0], parts[1], parts[2]))
    else None
  }

  lemma JoinThree(a: string, b: string, c: string)
    ensures Join([a, b, c], "-") == a + "-" + b + "-" + c
  {
    assert [a, b, c][1..] == [b, c] && [b, c][1..] == [c];
    assert Join([b, c], "-") == b + "-" + c;
  }

  /** Segments without dashes, joined by dashes, parse back to themselves. */
  lemma ReferenceRoundTrip(prefix: string, site: string, cart: string)
    requires '-' !in prefix && '-' !in site && '-' !in cart
    ensures ParseReference(prefix + "-" + site + "-" + cart) == Some((prefix, site, cart))
  {
    var parts := [prefix, site, cart];
    JoinThree(prefix, site, cart);
    SplitJoin(parts, '-');
  }

  // ---------------------------------------------------------------------
  // The store

  /** A cart: its primary key and its status. */
  datatype CartRecord = CartRecord(id: nat, status: string)

  /** A recorded gateway transaction: primary key, gateway id, cart key. */
  datatype TxRecord = TxRecord(pk: nat, gatewayId: Value, cart: string)

  /** The transaction an invoice names: its primary key and gateway id. */
  datatype TxRef = TxRef(pk: nat, gatewayId: Value)

  /** A paid invoice. */
  datatype Invoice = Invoice(id: nat, number: string, related: Option<TxRef>)

  /** Carts by reference key, recorded transactions in order, and the first
      paid invoice of each cart. */
  datatype Db = Db(carts: map<string, CartRecord>, transactions: seq<TxRecord>, invoices: map<string, Invoice>)

  predicate Recorded(db: Db, gatewayId: Value) {
    exists i :: 0 <= i < |db.transactions| && db.transactions[i].gatewayId == gatewayId
  }

  /** What a successful `handle_payment` leaves: the transaction appended and
      the cart paid. */
  function AfterPayment(db: Db, gatewayId: Value, cartKey: string): (r: Db)
    requires cartKey in db.carts
    ensures r.transactions == db.transactions + [TxRecord(|db.transactions| + 1, gatewayId, cartKey)]
    ensures r.carts.Keys == db.carts.Keys && r.invoices == db.invoices
    ensures r.carts[cartKey] == CartRecord(db.carts[cartKey].id, Paid)
    ensures forall k :: k in db.carts && k != cartKey ==> r.carts[k] == db.carts[k]
  {
    Db(db.carts[cartKey := db.carts[cartKey].(status := Paid)],
       db.transactions + [TxRecord(|db.transactions| + 1, gatewayId, cartKey)],
       db.invoices)
  }

  /** A new paid invoice only replaces nothing: the first paid invoice of a
      cart stays the one that is found. */
  function WithInvoice(db: Db, cartKey: string, invoice: Invoice): (r: Db)
    ensures r.carts == db.carts && r.transactions == db.transactions
    ensures cartKey in r.invoices
    ensures r.invoices[cartKey] == if cartKey in db.invoices then db.invoices[cartKey] else invoice
    ensures forall k :: k in db.invoices ==> k in r.invoices && r.invoices[k] == db.invoices[k]
    ensures r.invoices.Keys == db.invoices.Keys + {cartKey}
  {
    if cartKey in db.invoices then db else db.(invoices := db.invoices[cartKey := invoice])
  }

  datatype PaymentOutcome = PaymentRecorded(tx: TxRecord) | DuplicatePayment | PaymentFailed

  class PaymentStore {
    var carts: map<string, CartRecord>
    var transactions: seq<TxRecord>
    var invoices: map<string, Invoice>

    constructor (carts: map<string, CartRecord>)
      ensures State() == Db(carts, [], map[])
    {
      this.carts := carts;
      transactions := [];
      invoices := map[];
    }

    function State(): Db
      reads this
    {
      Db(carts, transactions, invoices)
    }

    /** Puts back a snapshot: the rollback of an atomic block. */
    method Restore(db: Db)
      modifies this
      ensures State() == db
    {
      carts := db.carts;
      transactions := db.transactions;
      invoices := db.invoices;
    }

    /** `handle_payment`: refuses a gateway id already recorded, and
        otherwise records the transaction and pays the cart.  With `fault`
        it fails after those writes, which its caller must roll back. */
    method HandlePayment(gatewayId: Value, cartKey: string, fault: bool) returns (outcome: PaymentOutcome)
      requires cartKey in carts
      modifies this
      ensures Recorded(old(State()), gatewayId) ==> outcome == DuplicatePayment && State() == old(State())
      ensures !Recorded(old(State()), gatewayId) ==>
              State() == AfterPayment(old(State()), gatewayId, cartKey)
              && outcome == (if fault then PaymentFailed else PaymentRecorded(TxRecord(|old(transactions)| + 1, gatewayId, cartKey)))
    {
      if Recorded(State(), gatewayId) {
        return DuplicatePayment;
      }
      var tx := TxRecord(|transactions| + 1, gatewayId, cartKey);
      transactions := transactions + [tx];
      carts := carts[cartKey := carts[cartKey].(status := Paid)];
      outcome := if fault then PaymentFailed else PaymentRecorded(tx);
    }

    /** `create_invoice`: with an issued invoice, records it as the cart's
        paid invoice unless the cart already has one. */
    method CreateInvoice(cartKey: string, tx: TxRecord, issued: InvoiceOutcome) returns (invoice: Option<Invoice>)
      modifies this
      ensures issued.InvoiceFails? ==> invoice == None && State() == old(State())
      ensures issued.InvoiceIssued? ==>
              invoice == Some(IssuedInvoice(issued, tx))
              && State() == WithInvoice(old(State()), cartKey, IssuedInvoice(issued, tx))
    {
      if issued.InvoiceFails? {
        return None;
      }
      var inv := IssuedInvoice(issued, tx);
      if cartKey !in invoices {
        invoices := invoices[cartKey := inv];
      }
      return Some(inv);
    }
  }

  // ---------------------------------------------------------------------
  // The status view

  /** The two query parameters; a missing parameter is None. */
  datatype Query = Query(transactionId: Option<string>, merchantReference: Option<string>)

  datatype Body = ErrorBody(message: string) | InvoiceBody(invoiceNumber: string)

  datatype JsonReply = JsonReply(status: nat, body: Body)

  /** A reply and the audit record it appends, if any. */
  datatype StatusOutcome = StatusOutcome(reply: JsonReply, audit: Option<Entry>)

  predicate Blank(p: Option<string>) {
    p.None? || p.value == ""
  }

  /** The names of the empty parameters, in query order. */
  function MissingParams(q: Query): (names: seq<string>)
    ensures names == [] <==> !Blank(q.transactionId) && !Blank(q.merchantReference)
    ensures "transaction_id" in names <==> Blank(q.transactionId)
    ensures "merchant_reference" in names <==> Blank(q.merchantReference)
    ensures forall i :: 0 <= i < |names| ==> names[i] == "transaction_id" || names[i] == "merchant_reference"
    ensures forall i, j :: 0 <= i < j < |names| ==> names[i] == "transaction_id" && names[j] == "merchant_reference"
  {
    (if Blank(q.transactionId) then ["transaction_id"] else [])
    + (if Blank(q.merchantReference) then ["merchant_reference"] else [])
  }

  const RequiredSuffix: string := " is required to verify payment status."

  /** The names, comma-separated, underscores turned into spaces, title-cased. */
  function MissingMessage(names: seq<string>): string {
    Title(ReplaceChar(Join(names, ", "), '_', ' ')) + RequiredSuffix
  }

  function InvalidReferenceMessage(reference: string): string {
    "merchant_reference: " + reference + " is invalid. Unable to retrieve cart."
  }

  /** The audit record of a reference that names no cart. */
  function InvalidReferenceEntry(reference: string): (e: Entry)
    ensures e.action == ResponseInvalidCart && e.cart == None && e.gateway == Slug
  {
    Entry(ResponseInvalidCart, Slug, None,
          map["cart_status" := Str("None, unable to retrieve cart from merchant transaction id " + reference),
              "required_cart_state" := Str(Processing)])
  }

  /** The HTTP status a cart status maps to before the invoice is looked at. */
  function CartStatusCode(status: string): (code: nat)
    ensures code == 200 <==> status == Paid
    ensures code == 202 <==> status == Processing
    ensures code == 200 || code == 202 || code == 404
  {
    if status == Paid then 200 else if status == Processing then 202 else 404
  }

  /** The decision for a paid cart, by its first paid invoice. */
  function PaidCartReply(transactionId: string, cart: CartRecord, invoice: Option<Invoice>): JsonReply {
    match invoice
    case None =>
      JsonReply(202, ErrorBody("Cart is in " + Paid + " status but unable to retrieve related paid invoice."))
    case Some(inv) =>
      match inv.related
      case None =>
        JsonReply(400, ErrorBody("Invoice exists with ID: " + NatToString(inv.id) + ", but related_transaction is None"))
      case Some(tx) =>
        if tx.gatewayId != Str(transactionId) then
          JsonReply(400, ErrorBody("Invoice exists with ID: " + NatToString(inv.id)
                                   + ", but the transaction ID in the invoice (Transaction object ("
                                   + NatToString(tx.pk) + ")) does not match the transaction ID in the response ("
                                   + transactionId + ") for cart ID: " + NatToString(cart.id) + "."))
        else JsonReply(200, InvoiceBody(inv.number))
  }

  /** `HyperPayStatusView.get` over the store. */
  function StatusCheck(q: Query, db: Db): StatusOutcome {
    var missing := MissingParams(q);
    if missing != [] then StatusOutcome(JsonReply(400, ErrorBody(MissingMessage(missing))), None)
    else
      var transactionId := q.transactionId.value;
      var reference := q.merchantReference.value;
      var parsed := ParseReference(reference);
      if parsed.None? || parsed.value.2 !in db.carts then
        StatusOutcome(JsonReply(404, ErrorBody(InvalidReferenceMessage(reference))), Some(InvalidReferenceEntry(reference)))
      else
        var cartKey := parsed.value.2;
        var cart := db.carts[cartKey];
        var code := CartStatusCode(cart.status);
        if code == 200 then
          StatusOutcome(PaidCartReply(transactionId, cart, if cartKey in db.invoices then Some(db.invoices[cartKey]) else None), None)
        else
          StatusOutcome(JsonReply(code, ErrorBody("Looking for paid cart but cart is in status: " + cart.status + ".")), None)
  }

  /** The cart a well-formed query names, if any. */
  function QueriedCart(q: Query, db: Db): Option<string> {
    if Blank(q.transactionId) || Blank(q.merchantReference) then None
    else
      var parsed := ParseReference(q.merchantReference.value);
      if parsed.Some? && parsed.value.2 in db.carts then Some(parsed.value.2) else None
  }

  /** The status view answers 200 exactly for a complete query naming a paid
      cart whose first paid invoice is related to the queried gateway
      transaction; the body then carries the invoice number. */
  lemma StatusOk(q: Query, db: Db)
    ensures StatusCheck(q, db).reply.status == 200 <==>
            QueriedCart(q, db).Some?
            && db.carts[QueriedCart(q, db).value].status == Paid
            && QueriedCart(q, db).value in db.invoices
            && db.invoices[QueriedCart(q, db).value].related.Some?
            && db.invoices[QueriedCart(q, db).value].related.value.gatewayId == Str(q.transactionId.value)
    ensures StatusCheck(q, db).reply.status == 200 ==>
            StatusCheck(q, db).reply.body == InvoiceBody(db.invoices[QueriedCart(q, db).value].number)
  {
  }

  /** An empty parameter gives 400 naming the empty ones; a reference that
      does not split into three segments or names no cart gives 404 and the
      one audit record; otherwise nothing is logged. */
  lemma StatusRejections(q: Query, db: Db)
    ensures MissingParams(q) != [] ==>
            StatusCheck(q, db) == StatusOutcome(JsonReply(400, ErrorBody(MissingMessage(MissingParams(q)))), None)
    ensures MissingParams(q) == [] && QueriedCart(q, db).None? ==>
            StatusCheck(q, db) == StatusOutcome(JsonReply(404, ErrorBody(InvalidReferenceMessage(q.merchantReference.value))),
                                                Some(InvalidReferenceEntry(q.merchantReference.value)))
    ensures StatusCheck(q, db).audit.Some? <==> MissingParams(q) == [] && QueriedCart(q, db).None?
  {
  }

  /** A cart that is not paid gives 202 when processing and 404 otherwise,
      both saying which status the cart is in. */
  lemma StatusUnpaid(q: Query, db: Db)
    requires QueriedCart(q, db).Some? && db.carts[QueriedCart(q, db).value].status != Paid
    ensures var status := db.carts[QueriedCart(q, db).value].status;
            StatusCheck(q, db).reply ==
            JsonReply(if status == Processing then 202 else 404,
                      ErrorBody("Looking for paid cart but cart is in status: " + status + "."))
  {
  }

  /** A paid cart without a paid invoice gives 202; a paid invoice without a
      related transaction, or related to another gateway transaction, gives
      400. */
  lemma StatusPaidCart(q: Query, db: Db)
    requires QueriedCart(q, db).Some? && db.carts[QueriedCart(q, db).value].status == Paid
    ensures QueriedCart(q, db).value !in db.invoices ==> StatusCheck(q, db).reply.status == 202
    ensures QueriedCart(q, db).value in db.invoices ==>
            (StatusCheck(q, db).reply.status == 400 <==>
             db.invoices[QueriedCart(q, db).value].related.None?
             || db.invoices[QueriedCart(q, db).value].related.value.gatewayId != Str(q.transactionId.value))
  {
  }

  /** A lower-case word with a capital initial. */
  function Capitalised(w: string): string
    requires w != []
  {
    [ToUpper(w[0])] + w[1..]
  }

  /** For a parameter name of two lower-case words joined by an underscore,
      the message names it as the two words capitalised. */
  lemma TwoWordMessage(first: string, second: string)
    requires first != [] && second != []
    requires forall i :: 0 <= i < |first| ==> IsLower(first[i])
    requires forall i :: 0 <= i < |second| ==> IsLower(second[i])
    ensures MissingMessage([first + "_" + second]) == Capitalised(first) + " " + Capitalised(second) + RequiredSuffix
  {
    var name := first + "_" + second;
    assert Join([name], ", ") == name;
    assert forall i :: 0 <= i < |first| ==> first[i] != '_';
    assert forall i :: 0 <= i < |second| ==> second[i] != '_';
    ReplaceAround(first, second, '_', ' ');
    ReplaceAbsent(first, '_', ' ');
    ReplaceAbsent(second, '_', ' ');
    assert ReplaceChar(name, '_', ' ') == first + " " + second;
    TitleAfterAppend(first + " ", second, false);
    TitleAfterAppend(first, " ", false);
    TitleLowerWord(first, false);
    TitleLowerWord(second, false);
    assert TitleAfter(" ", IsLetter(first[|first| - 1])) == " ";
    assert (first + " ")[|first + " "| - 1] == ' ';
    assert TitleAfter(first + " ", false) == Capitalised(first) + " ";
    assert Title(first + " " + second) == Capitalised(first) + " " + Capitalised(second);
  }

  /** The messages the status view's tests pin down. */
  lemma MissingReferenceMessage()
    ensures MissingMessage(["merchant_reference"]) == "Merchant Reference" + RequiredSuffix
  {
    LowerWords("merchant", "reference");
    TwoWordMessage("merchant", "reference");
    assert Capitalised("merchant") + " " + Capitalised("reference") == "Merchant Reference";
    assert "merchant" + "_" + "reference" == "merchant_reference";
  }

  lemma MissingTransactionMessage()
    ensures MissingMessage(["transaction_id"]) == "Transaction Id" + RequiredSuffix
  {
    LowerWords("transaction", "id");
    TwoWordMessage("transaction", "id");
    assert Capitalised("transaction") + " " + Capitalised("id") == "Transaction Id";
    assert "transaction" + "_" + "id" == "transaction_id";
  }

  /** A query with a transaction id but an empty or missing reference gets
      the reply the status view's tests pin down. */
  lemma MissingReferenceReply(transactionId: string, reference: Option<string>, db: Db)
    requires transactionId != "" && Blank(reference)
    ensures StatusCheck(Query(Some(transactionId), reference), db)
            == StatusOutcome(JsonReply(400, ErrorBody("Merchant Reference" + RequiredSuffix)), None)
  {
    MissingReferenceMessage();
    assert MissingParams(Query(Some(transactionId), reference)) == ["merchant_reference"];
  }

  /** A query with a reference but an empty or missing transaction id. */
  lemma MissingTransactionReply(transactionId: Option<string>, reference: string, db: Db)
    requires Blank(transactionId) && reference != ""
    ensures StatusCheck(Query(transactionId, Some(reference)), db)
            == StatusOutcome(JsonReply(400, ErrorBody("Transaction Id" + RequiredSuffix)), None)
  {
    MissingTransactionMessage();
    assert MissingParams(Query(transactionId, Some(reference))) == ["transaction_id"];
  }

  lemma LowerWords(first: string, second: string)
    requires first == "merchant" || first == "transaction"
    requires second == "reference" || second == "id"
    ensures forall i :: 0 <= i < |first| ==> IsLower(first[i])
    ensures forall i :: 0 <= i < |second| ==> IsLower(second[i])
  {
  }

  /** `HyperPayStatusView.get`: answers the query and appends its audit
      record, if any. */
  method StatusView(q: Query, store: PaymentStore, log: AuditLog) returns (reply: JsonReply)
    modifies log
    ensures reply == StatusCheck(q, store.State()).reply
    ensures log.entries == old(log.entries) + (match StatusCheck(q, store.State()).audit
                                                case None => []
                                                case Some(e) => [e])
  {
    var outcome := StatusCheck(q, store.State());
    if outcome.audit.Some? {
      log.Log(outcome.audit.value);
    }
    reply := outcome.reply;
  }

  // ---------------------------------------------------------------------
  // The webhook

  /** What `create_invoice` does in a given call. */
  datatype InvoiceOutcome = InvoiceFails | InvoiceIssued(id: nat, number: string)

  function IssuedInvoice(issued: InvoiceOutcome, tx: TxRecord): Invoice
    requires issued.InvoiceIssued?
  {
    Invoice(issued.id, issued.number, Some(TxRef(tx.pk, tx.gatewayId)))
  }

  /** The collaborators' behaviour in one delivery: whether `handle_payment`
      fails after its writes, what `create_invoice` does, and whether
      `fulfill_cart` succeeds. */
  datatype Oracles = Oracles(paymentFault: bool, invoice: InvoiceOutcome, fulfilled: bool)

  /** The HTTP answer, or an error that escapes the view. */
  datatype WebhookReply = Respond(status: nat) | Uncaught(error: Client.ClientError)

  /** The state after a delivery, the audit records it appended, and the
      answer. */
  datatype Step = Step(db: Db, logged: seq<Entry>, reply: WebhookReply)

  /** `data['merchant_transaction_id'].split('-')` unpacked into three. */
  function MerchantReference(data: map<string, Value>): (r: Result<(string, string, string), PyError>)
    ensures "merchant_transaction_id" !in data ==> r == Err(KeyError)
    ensures r.Ok? <==> "merchant_transaction_id" in data && data["merchant_transaction_id"].Str?
                       && ParseReference(data["merchant_transaction_id"].s).Some?
    ensures r.Ok? ==> r.value == ParseReference(data["merchant_transaction_id"].s).value
  {
    if "merchant_transaction_id" !in data then Err(KeyError)
    else
      match data["merchant_transaction_id"]
      case Str(s) => (match ParseReference(s) case Some(parts) => Ok(parts) case None => Err(ValueError))
      case _ => Err(AttributeError)
  }

  /** The arguments read for `handle_payment`: a missing one raises inside
      the atomic block. */
  predicate PaymentArgsPresent(data: map<string, Value>) {
    "id" in data && "payment_brand" in data && "amount" in data && "currency" in data
    && "result" in data && data["result"].Dict? && "description" in data["result"].fields
  }

  function WrongStateEntry(cartKey: string, status: string): Entry {
    Entry(ResponseInvalidCart, Slug, Some(cartKey),
          map["cart_status" := Str(status), "required_cart_state" := Str(Processing)])
  }

  function DuplicateEntry(cartKey: string, gatewayId: Value, status: string): Entry {
    Entry(DuplicateTransaction, Slug, Some(cartKey), map["transaction_id" := gatewayId, "cart_status" := Str(status)])
  }

  function RolledBackEntry(cartKey: string, gatewayId: Value, cartId: nat, site: string): Entry {
    Entry(TransactionRolledBack, Slug, Some(cartKey),
          map["transaction_id" := gatewayId, "cart_id" := Int(cartId), "site_id" := Str(site)])
  }

  function FulfilledEntry(cartKey: string): Entry {
    Entry(CartFulfilled, Slug, Some(cartKey), map[])
  }

  /** After the payment has committed: invoicing, then fulfilment, each
      failure only logged; the reply is 200 whatever happens. */
  function AfterCommit(db: Db, cartKey: string, tx: TxRecord, o: Oracles): (s: Step)
    ensures s.reply == Respond(200)
    ensures s.db.carts == db.carts && s.db.transactions == db.transactions
  {
    match o.invoice
    case InvoiceFails => Step(db, [], Respond(200))
    case InvoiceIssued(_, _) =>
      var db' := WithInvoice(db, cartKey, IssuedInvoice(o.invoice, tx));
      Step(db', if o.fulfilled then [FulfilledEntry(cartKey)] else [], Respond(200))
  }

  /** The delivery once the cart is known: the state check, the atomic
      payment record, then fulfilment. */
  function ReconcileCart(db: Db, data: map<string, Value>, site: string, cartKey: string, o: Oracles): Step
    requires cartKey in db.carts && "id" in data
  {
    var cart := db.carts[cartKey];
    if cart.status != Processing then
      Step(db, [WrongStateEntry(cartKey, cart.status)], Respond(200))
    else if !PaymentArgsPresent(data) || (!Recorded(db, data["id"]) && o.paymentFault) then
      Step(db, [RolledBackEntry(cartKey, data["id"], cart.id, site)], Respond(200))
    else if Recorded(db, data["id"]) then
      Step(db, [DuplicateEntry(cartKey, data["id"], cart.status)], Respond(200))
    else
      var tx := TxRecord(|db.transactions| + 1, data["id"], cartKey);
      AfterCommit(AfterPayment(db, data["id"], cartKey), cartKey, tx, o)
  }

  /** `HyperPayWebhookView.post` as a function of the store, the payload and
      the collaborators' behaviour.  The received payload is always logged
      first. */
  function Reconcile(db: Db, data: map<string, Value>, o: Oracles): (s: Step)
    ensures |s.logged| >= 1 && s.logged[0] == ReceivedEntry(Slug, data)
  {
    var received := ReceivedEntry(Slug, data);
    match Client.WebhookStatus(data)
    case Err(e) => Step(db, [received], Uncaught(e))
    case Ok(status) =>
      if status != Client.SUCCESS then Step(db, [received], Respond(200))
      else
        match MerchantReference(data)
        case Err(e) => Step(db, [received], Uncaught(Client.Raised(e)))
        case Ok(parts) =>
          if parts.2 !in db.carts then
            Step(db, [received, InvalidReferenceEntry(data["merchant_transaction_id"].s)], Respond(400))
          else
            var rest := ReconcileCart(db, data, parts.1, parts.2, o);
            Step(rest.db, [received] + rest.logged, rest.reply)
  }

  /** The webhook view itself, over the store and the audit log. */
  method Webhook(store: PaymentStore, log: AuditLog, data: map<string, Value>, o: Oracles) returns (reply: WebhookReply)
    modifies store, log
    ensures store.State() == Reconcile(old(store.State()), data, o).db
    ensures log.entries == old(log.entries) + Reconcile(old(store.State()), data, o).logged
    ensures reply == Reconcile(old(store.State()), data, o).reply
  {
    log.Log(ReceivedEntry(Slug, data));
    var status := Client.WebhookStatus(data);
    if status.Err? {
      return Uncaught(status.error);
    }
    if status.value != Client.SUCCESS {
      return Respond(200);
    }
    var reference := MerchantReference(data);
    if reference.Err? {
      return Uncaught(Client.Raised(reference.error));
    }
    var (_, site, cartKey) := reference.value;
    if cartKey !in store.carts {
      log.Log(InvalidReferenceEntry(data["merchant_transaction_id"].s));
      return Respond(400);
    }
    var cart := store.carts[cartKey];
    if cart.status != Processing {
      log.Log(WrongStateEntry(cartKey, cart.status));
      return Respond(200);
    }
    var gatewayId := data["id"];
    var snapshot := store.State();
    if !PaymentArgsPresent(data) {
      store.Restore(snapshot);
      log.Log(RolledBackEntry(cartKey, gatewayId, cart.id, site));
      return Respond(200);
    }
    var outcome := store.HandlePayment(gatewayId, cartKey, o.paymentFault);
    match outcome {
      case DuplicatePayment =>
        store.Restore(snapshot);
        log.Log(DuplicateEntry(cartKey, gatewayId, cart.status));
        return Respond(200);
      case PaymentFailed =>
        store.Restore(snapshot);
        log.Log(RolledBackEntry(cartKey, gatewayId, cart.id, site));
        return Respond(200);
      case PaymentRecorded(tx) =>
        var invoice := store.CreateInvoice(cartKey, tx, o.invoice);
        if invoice.Some? && o.fulfilled {
          log.Log(FulfilledEntry(cartKey));
        }
        return Respond(200);
    }
  }

  // ---------------------------------------------------------------------
  // What the webhook guarantees

  /** The delivery records a payment: a successful callback whose reference
      names a processing cart, with every payment argument present, a
      gateway id not recorded before, and `handle_payment` not failing. */
  predicate Commits(db: Db, data: map<string, Value>, o: Oracles) {
    Client.WebhookStatus(data) == Ok(Client.SUCCESS)
    && MerchantReference(data).Ok?
    && MerchantReference(data).value.2 in db.carts
    && db.carts[MerchantReference(data).value.2].status == Processing
    && PaymentArgsPresent(data)
    && !Recorded(db, data["id"])
    && !o.paymentFault
  }

  /** The answers: an error escapes exactly when the callback cannot be
      classified or a successful one carries a malformed reference; 400
      exactly when a successful callback names no known cart; 200 in every
      other case.  Only a non-committing delivery leaves the store as it was,
      and the received payload always heads the records. */
  lemma WebhookReplies(db: Db, data: map<string, Value>, o: Oracles)
    ensures var s := Reconcile(db, data, o);
            s.reply.Uncaught? <==>
            Client.WebhookStatus(data).Err?
            || (Client.WebhookStatus(data) == Ok(Client.SUCCESS) && MerchantReference(data).Err?)
    ensures var s := Reconcile(db, data, o);
            s.reply == Respond(400) <==>
            Client.WebhookStatus(data) == Ok(Client.SUCCESS) && MerchantReference(data).Ok?
            && MerchantReference(data).value.2 !in db.carts
    ensures var s := Reconcile(db, data, o);
            s.reply.Respond? ==> s.reply.status == 200 || s.reply.status == 400
    ensures var s := Reconcile(db, data, o);
            Client.WebhookStatus(data) != Ok(Client.SUCCESS) ==> s.db == db && s.logged == [ReceivedEntry(Slug, data)]
  {
  }

  /** A committed delivery appends exactly one transaction and pays its
      cart, whatever invoicing and fulfilment then do; every other delivery
      leaves the store untouched. */
  lemma WebhookCommit(db: Db, data: map<string, Value>, o: Oracles)
    ensures var s := Reconcile(db, data, o);
            s.db.transactions != db.transactions <==> Commits(db, data, o)
    ensures !Commits(db, data, o) ==> Reconcile(db, data, o).db == db
    ensures Commits(db, data, o) ==>
            var s := Reconcile(db, data, o);
            var key := MerchantReference(data).value.2;
            s.reply == Respond(200)
            && s.db.transactions == db.transactions + [TxRecord(|db.transactions| + 1, data["id"], key)]
            && s.db.carts == db.carts[key := db.carts[key].(status := Paid)]
            && s.logged == [ReceivedEntry(Slug, data)]
                           + (if o.invoice.InvoiceIssued? && o.fulfilled then [FulfilledEntry(key)] else [])
  {
    if Commits(db, data, o) {
      var key := MerchantReference(data).value.2;
      var after := AfterPayment(db, data["id"], key);
      assert Reconcile(db, data, o).db.transactions == after.transactions;
      assert |after.transactions| > |db.transactions|;
    }
  }

  /** A cart that is not processing is only reported, whatever the payload
      and the collaborators do. */
  lemma NotProcessingReported(db: Db, data: map<string, Value>, o: Oracles)
    requires Client.WebhookStatus(data) == Ok(Client.SUCCESS) && MerchantReference(data).Ok?
    requires MerchantReference(data).value.2 in db.carts
    requires db.carts[MerchantReference(data).value.2].status != Processing
    ensures var key := MerchantReference(data).value.2;
            Reconcile(db, data, o)
            == Step(db, [ReceivedEntry(Slug, data), WrongStateEntry(key, db.carts[key].status)], Respond(200))
  {
  }

  /** A gateway id already recorded is refused as a duplicate, and nothing
      is written, whether or not `handle_payment` would have failed. */
  lemma DuplicateRefused(db: Db, data: map<string, Value>, o: Oracles)
    requires Client.WebhookStatus(data) == Ok(Client.SUCCESS) && MerchantReference(data).Ok?
    requires MerchantReference(data).value.2 in db.carts
    requires db.carts[MerchantReference(data).value.2].status == Processing
    requires PaymentArgsPresent(data) && Recorded(db, data["id"])
    ensures var key := MerchantReference(data).value.2;
            Reconcile(db, data, o)
            == Step(db, [ReceivedEntry(Slug, data), DuplicateEntry(key, data["id"], Processing)], Respond(200))
  {
  }

  /** A missing payment argument or a failing `handle_payment` rolls the
      atomic block back: the store is as before and the rollback is
      recorded with the cart and the site. */
  lemma FailureRolledBack(db: Db, data: map<string, Value>, o: Oracles)
    requires Client.WebhookStatus(data) == Ok(Client.SUCCESS) && MerchantReference(data).Ok?
    requires MerchantReference(data).value.2 in db.carts
    requires db.carts[MerchantReference(data).value.2].status == Processing
    requires !PaymentArgsPresent(data) || (!Recorded(db, data["id"]) && o.paymentFault)
    ensures var (_, site, key) := MerchantReference(data).value;
            Reconcile(db, data, o)
            == Step(db, [ReceivedEntry(Slug, data), RolledBackEntry(key, data["id"], db.carts[key].id, site)], Respond(200))
  {
  }

  /** Once a delivery has committed, delivering the same payload again
      changes nothing: the cart is paid, so it is only reported. */
  lemma RedeliveryChangesNothing(db: Db, data: map<string, Value>, o: Oracles, o': Oracles)
    requires Commits(db, data, o)
    ensures var s := Reconcile(db, data, o);
            var key := MerchantReference(data).value.2;
            Reconcile(s.db, data, o')
            == Step(s.db, [ReceivedEntry(Slug, data), WrongStateEntry(key, Paid)], Respond(200))
  {
    WebhookCommit(db, data, o);
    var s := Reconcile(db, data, o);
    var key := MerchantReference(data).value.2;
    assert s.db.carts[key].status == Paid;
    NotProcessingReported(s.db, data, o');
  }

  /** The invoice a cart has keeps naming a transaction of that cart. */
  predicate InvoiceLinked(db: Db, key: string)
    requires key in db.invoices
  {
    var related := db.invoices[key].related;
    related.Some? && 1 <= related.value.pk <= |db.transactions|
    && db.transactions[related.value.pk - 1] == TxRecord(related.value.pk, related.value.gatewayId, key)
  }

  /** The store's bookkeeping: transactions numbered in order, each naming a
      known cart that is paid; no gateway id recorded twice; every invoice
      for a known cart and linked to one of its transactions. */
  predicate Consistent(db: Db) {
    (forall i :: 0 <= i < |db.transactions| ==>
       db.transactions[i].pk == i + 1 && db.transactions[i].cart in db.carts
       && db.carts[db.transactions[i].cart].status == Paid)
    && (forall i, j :: 0 <= i < j < |db.transactions| ==> db.transactions[i].gatewayId != db.transactions[j].gatewayId)
    && (forall key :: key in db.invoices ==> key in db.carts && InvoiceLinked(db, key))
  }

  /** A fresh store is consistent. */
  lemma FreshConsistent(carts: map<string, CartRecord>)
    ensures Consistent(Db(carts, [], map[]))
  {
  }

  /** A consistent store knows no invoice of a cart that is not paid. */
  lemma UnpaidHasNoInvoice(db: Db, key: string)
    requires Consistent(db) && key in db.carts && db.carts[key].status != Paid
    ensures key !in db.invoices
  {
  }

  /** Recording a new gateway id against a known cart keeps the store
      consistent. */
  lemma PaymentConsistent(db: Db, gatewayId: Value, key: string)
    requires Consistent(db) && key in db.carts && !Recorded(db, gatewayId)
    ensures Consistent(AfterPayment(db, gatewayId, key))
  {
    var paid := AfterPayment(db, gatewayId, key);
    var n := |db.transactions|;
    assert paid.transactions[n] == TxRecord(n + 1, gatewayId, key);
    assert forall i :: 0 <= i < n ==> paid.transactions[i] == db.transactions[i];
    forall key' | key' in paid.invoices
      ensures key' in paid.carts && InvoiceLinked(paid, key')
    {
      assert InvoiceLinked(db, key');
    }
  }

  /** Adding an invoice linked to a transaction of its cart keeps the store
      consistent. */
  lemma InvoiceConsistent(db: Db, key: string, invoice: Invoice)
    requires Consistent(db) && key in db.carts
    requires invoice.related.Some? && 1 <= invoice.related.value.pk <= |db.transactions|
    requires db.transactions[invoice.related.value.pk - 1] == TxRecord(invoice.related.value.pk, invoice.related.value.gatewayId, key)
    ensures Consistent(WithInvoice(db, key, invoice))
  {
    var r := WithInvoice(db, key, invoice);
    forall key' | key' in r.invoices
      ensures key' in r.carts && InvoiceLinked(r, key')
    {
      if key' in db.invoices {
        assert InvoiceLinked(db, key');
      }
    }
  }

  /** The store a committed delivery leaves. */
  lemma CommitState(db: Db, data: map<string, Value>, o: Oracles)
    requires Commits(db, data, o)
    ensures var key := MerchantReference(data).value.2;
            Reconcile(db, data, o).db
            == AfterCommit(AfterPayment(db, data["id"], key), key, TxRecord(|db.transactions| + 1, data["id"], key), o).db
  {
  }

  /** A committed delivery, field by field: the transaction is appended with
      the next number, only its cart becomes paid, and the cart gains the
      issued invoice unless it already had one. */
  lemma CommitOutcome(db: Db, data: map<string, Value>, o: Oracles)
    requires Commits(db, data, o)
    ensures var key := MerchantReference(data).value.2;
            var tx := TxRecord(|db.transactions| + 1, data["id"], key);
            var r := Reconcile(db, data, o);
            && r.reply == Respond(200)
            && r.db.transactions == db.transactions + [tx]
            && r.db.carts == db.carts[key := CartRecord(db.carts[key].id, Paid)]
            && r.db.invoices == if o.invoice.InvoiceIssued? && key !in db.invoices
                                then db.invoices[key := Invoice(o.invoice.id, o.invoice.number, Some(TxRef(tx.pk, tx.gatewayId)))]
                                else db.invoices
  {
    CommitState(db, data, o);
  }

  /** A committed payment keeps the store consistent. */
  lemma CommitConsistent(db: Db, data: map<string, Value>, o: Oracles)
    requires Consistent(db) && Commits(db, data, o)
    ensures Consistent(Reconcile(db, data, o).db)
  {
    var key := MerchantReference(data).value.2;
    var tx := TxRecord(|db.transactions| + 1, data["id"], key);
    var paid := AfterPayment(db, data["id"], key);
    PaymentConsistent(db, data["id"], key);
    CommitState(db, data, o);
    if o.invoice.InvoiceIssued? {
      assert paid.transactions[|db.transactions|] == tx;
      InvoiceConsistent(paid, key, IssuedInvoice(o.invoice, tx));
    }
  }

  /** Every delivery keeps the store consistent. */
  lemma ReconcileConsistent(db: Db, data: map<string, Value>, o: Oracles)
    requires Consistent(db)
    ensures Consistent(Reconcile(db, data, o).db)
  {
    WebhookCommit(db, data, o);
    if Commits(db, data, o) {
      CommitConsistent(db, data, o);
    }
  }

  /** A recorded payment is visible to the status view: after a committed
      delivery that issued an invoice, querying its gateway id and
      reference answers 200 with that invoice's number. */
  lemma CommittedPaymentVisible(db: Db, data: map<string, Value>, o: Oracles)
    requires Consistent(db) && Commits(db, data, o) && o.invoice.InvoiceIssued?
    requires data["id"].Str?
    ensures var q := Query(Some(data["id"].s), Some(data["merchant_transaction_id"].s));
            StatusCheck(q, Reconcile(db, data, o).db).reply == JsonReply(200, InvoiceBody(o.invoice.number))
  {
    var key := MerchantReference(data).value.2;
    UnpaidHasNoInvoice(db, key);
    WebhookCommit(db, data, o);
    var s := Reconcile(db, data, o);
    var q := Query(Some(data["id"].s), Some(data["merchant_transaction_id"].s));
    assert QueriedCart(q, s.db) == Some(key);
    assert s.db.invoices[key] == IssuedInvoice(o.invoice, TxRecord(|db.transactions| + 1, data["id"], key));
  }

  /** One webhook delivery: its payload and its collaborators' behaviour. */
  datatype Delivery = Delivery(data: map<string, Value>, oracles: Oracles)

  /** The store after a sequence of deliveries, in order. */
  function ReconcileAll(db: Db, deliveries: seq<Delivery>): Db
    decreases |deliveries|
  {
    if deliveries == [] then db
    else ReconcileAll(Reconcile(db, deliveries[0].data, deliveries[0].oracles).db, deliveries[1..])
  }

  /** Consistency holds after any sequence of deliveries. */
  lemma {:induction false} ReconcileAllConsistent(db: Db, deliveries: seq<Delivery>)
    requires Consistent(db)
    ensures Consistent(ReconcileAll(db, deliveries))
    decreases |deliveries|
  {
    if deliveries != [] {
      ReconcileConsistent(db, deliveries[0].data, deliveries[0].oracles);
      ReconcileAllConsistent(Reconcile(db, deliveries[0].data, deliveries[0].oracles).db, deliveries[1..]);
    }
  }

  /** Deliveries only append transactions and never replace an invoice. */
  lemma {:induction false} ReconcileAllGrows(db: Db, deliveries: seq<Delivery>)
    ensures db.transactions <= ReconcileAll(db, deliveries).transactions
    ensures forall key :: key in db.invoices ==>
              key in ReconcileAll(db, deliveries).invoices && ReconcileAll(db, deliveries).invoices[key] == db.invoices[key]
    decreases |deliveries|
  {
    if deliveries != [] {
      var d := deliveries[0];
      var next := Reconcile(db, d.data, d.oracles).db;
      WebhookCommit(db, d.data, d.oracles);
      ReconcileAllGrows(next, deliveries[1..]);
    }
  }
}
