/** The validator of a successful payment response against the local cart.
    It runs a fixed chain of checks and stops at the first one that fails:
    mandatory fields, amount, currency, result code, card fields, item
    count.  A failed check raises the gateway exception; a payload of the
    wrong shape can also make Python itself raise. */
module Helpers {

  import opened PyValues
  import opened Decimals

  /** The fields every success response must carry, in the order they are
      checked. */
  const MandatoryFields: seq<string> :=
    ["id", "paymentType", "paymentBrand", "amount", "currency", "merchantTransactionId", "result"]

  /** The fields a non-empty card must carry, in the order they are checked. */
  const CardFields: seq<string> := ["bin", "last4Digits", "holder", "expiryMonth", "expiryYear"]

  /** What the validator reads of the local cart: its total and the number
      of its items. */
  datatype CartSummary = CartSummary(total: Decimal, itemCount: nat)

  /** The reason a check failed, carrying what its message reports. */
  datatype Rejection =
    | MissingField(field: string)
    | AmountMismatch(total: Decimal, received: Value)
    | InvalidCurrency(received: Value)
    | InvalidResultCode
    | MissingCardField(field: string)
    | ItemCountMismatch(local: nat, responded: nat)

  /** The validator returns normally, raises the gateway exception, or lets a
      Python error escape. */
  datatype Verdict = Valid | Rejected(why: Rejection) | Crashed(error: PyError)

  /** The first of `fields`, in order, that `field in container` reports
      absent. */
  function FirstMissing(container: Value, fields: seq<string>): Result<Option<string>, PyError> {
    if fields == [] then Ok(None)
    else
      match Contains(container, fields[0])
      case Err(e) => Err(e)
      case Ok(present) => if !present then Ok(Some(fields[0])) else FirstMissing(container, fields[1..])
  }

  /** On a container, the search finds nothing exactly when every field is
      present, and otherwise names the first absent field in list order. */
  lemma {:induction false} FirstMissingFirst(container: Value, fields: seq<string>)
    requires container.Dict? || container.Str? || container.List?
    ensures FirstMissing(container, fields).Ok?
    ensures FirstMissing(container, fields).value.None? <==>
            forall j :: 0 <= j < |fields| ==> Contains(container, fields[j]) == Ok(true)
    ensures FirstMissing(container, fields).value.Some? ==>
            exists k :: 0 <= k < |fields| && fields[k] == FirstMissing(container, fields).value.value
                        && Contains(container, fields[k]) == Ok(false)
                        && forall j :: 0 <= j < k ==> Contains(container, fields[j]) == Ok(true)
  {
    if fields != [] && Contains(container, fields[0]) == Ok(true) {
      var rest := fields[1..];
      FirstMissingFirst(container, rest);
      assert forall j :: 1 <= j < |fields| ==> fields[j] == rest[j - 1];
      var r := FirstMissing(container, rest);
      if r.value.Some? {
        var k :| 0 <= k < |rest| && rest[k] == r.value.value && Contains(container, rest[k]) == Ok(false)
                 && forall j :: 0 <= j < k ==> Contains(container, rest[j]) == Ok(true);
        assert fields[k + 1] == rest[k];
      }
    }
  }

  /** `Decimal(v)` on a decoded JSON value; None where the conversion raises
      or yields a value (NaN, infinity) that equals no total. */
  function DecimalOf(v: Value): Option<Decimal> {
    match v
    case Str(s) => ParseDecimal(s)
    case Int(i) => Some(Decimal(i, 0))
    case Bool(b) => Some(Decimal(if b then 1 else 0, 0))
    case _ => None
  }

  /** Every mandatory field is present. */
  predicate HasMandatory(response: map<string, Value>)
    ensures HasMandatory(response) ==> "amount" in response && "currency" in response && "result" in response
  {
    assert MandatoryFields[3] == "amount" && MandatoryFields[4] == "currency" && MandatoryFields[6] == "result";
    forall j :: 0 <= j < |MandatoryFields| ==> MandatoryFields[j] in response
  }

  /** The mandatory-field check. */
  function MandatoryCheck(response: map<string, Value>): (r: Verdict)
    ensures r == Valid <==> HasMandatory(response)
    ensures r != Valid ==> r.Rejected? && r.why.MissingField?
  {
    FirstMissingFirst(Dict(response), MandatoryFields);
    match FirstMissing(Dict(response), MandatoryFields)
    case Ok(None) => Valid
    case Ok(Some(f)) => Rejected(MissingField(f))
    case Err(e) => Crashed(e)
  }

  /** The amount check: whether the amount fails to convert or differs from
      the cart total, the outcome is the one comparison error. */
  function AmountCheck(response: map<string, Value>, cart: CartSummary): Verdict
    requires HasMandatory(response)
  {
    var amount := response["amount"];
    var received := DecimalOf(amount);
    if received.Some? && SameValue(received.value, cart.total) then Valid
    else Rejected(AmountMismatch(cart.total, amount))
  }

  function CurrencyCheck(response: map<string, Value>, validCurrency: string): Verdict
    requires HasMandatory(response)
  {
    if response["currency"] != Str(validCurrency) then Rejected(InvalidCurrency(response["currency"])) else Valid
  }

  /** `result.code` must be a non-empty string; a result that is not a dict
      has no `get`. */
  function ResultCodeCheck(response: map<string, Value>): Verdict
    requires HasMandatory(response)
  {
    match GetAttr(response["result"], "code")
    case Err(e) => Crashed(e)
    case Ok(code) => if !Truthy(code) || !code.Str? then Rejected(InvalidResultCode) else Valid
  }

  /** A non-empty card must carry every card field; an absent or empty card
      is not examined. */
  function CardCheck(response: map<string, Value>): Verdict {
    var card := GetOr(response, "card", Dict(map[]));
    if !Truthy(card) then Valid
    else
      match FirstMissing(card, CardFields)
      case Err(e) => Crashed(e)
      case Ok(None) => Valid
      case Ok(Some(f)) => Rejected(MissingCardField(f))
  }

  /** `len(response.get('cart', {}).get('items', []))` must equal the local
      item count. */
  function ItemCountCheck(response: map<string, Value>, cart: CartSummary): Verdict {
    match GetAttrOr(GetOr(response, "cart", Dict(map[])), "items", List([]))
    case Err(e) => Crashed(e)
    case Ok(items) =>
      match Len(items)
      case Err(e) => Crashed(e)
      case Ok(n) => if n != cart.itemCount then Rejected(ItemCountMismatch(cart.itemCount, n)) else Valid
  }

  /** `verify_success_response_with_cart`: the checks in their fixed order,
      the first failure deciding the outcome. */
  function VerifySuccessResponse(response: map<string, Value>, cart: CartSummary, validCurrency: string): Verdict {
    var mandatory := MandatoryCheck(response);
    if mandatory != Valid then mandatory
    else
      var amount := AmountCheck(response, cart);
      if amount != Valid then amount
      else
        var currency := CurrencyCheck(response, validCurrency);
        if currency != Valid then currency
        else
          var code := ResultCodeCheck(response);
          if code != Valid then code
          else
            var card := CardCheck(response);
            if card != Valid then card
            else ItemCountCheck(response, cart)
  }

  /** A response passes exactly when every check passes, stated directly on
      the response: all mandatory fields present, an amount whose decimal
      value is the cart total, the valid currency, a non-empty string result
      code, an absent, empty or complete card, and as many items as the
      cart. */
  lemma VerifyValid(response: map<string, Value>, cart: CartSummary, validCurrency: string)
    ensures VerifySuccessResponse(response, cart, validCurrency) == Valid <==>
            HasMandatory(response)
            && DecimalOf(response["amount"]).Some? && SameValue(DecimalOf(response["amount"]).value, cart.total)
            && response["currency"] == Str(validCurrency)
            && response["result"].Dict? && Get(response["result"].fields, "code").Str?
            && Get(response["result"].fields, "code").s != []
            && (var card := GetOr(response, "card", Dict(map[]));
                !Truthy(card) ||
                ((card.Dict? || card.Str? || card.List?)
                 && forall j :: 0 <= j < |CardFields| ==> Contains(card, CardFields[j]) == Ok(true)))
            && (var c := GetOr(response, "cart", Dict(map[]));
                c.Dict? && Len(GetOr(c.fields, "items", List([]))) == Ok(cart.itemCount))
  {
    var card := GetOr(response, "card", Dict(map[]));
    if Truthy(card) && (card.Dict? || card.Str? || card.List?) {
      FirstMissingFirst(card, CardFields);
    }
  }

  /** A mandatory field that is missing is reported by name, and it is the
      first missing one in list order. */
  lemma FirstMissingFieldReported(response: map<string, Value>, cart: CartSummary, validCurrency: string)
    requires !HasMandatory(response)
    ensures var r := VerifySuccessResponse(response, cart, validCurrency);
            r.Rejected? && r.why.MissingField? &&
            exists k :: 0 <= k < |MandatoryFields| && MandatoryFields[k] == r.why.field
                        && MandatoryFields[k] !in response
                        && forall j :: 0 <= j < k ==> MandatoryFields[j] in response
  {
    FirstMissingFirst(Dict(response), MandatoryFields);
  }

  /** An amount the text of the cart total spells passes the amount check,
      and so does any text that parses to the same value at another scale. */
  lemma TotalTextAccepted(response: map<string, Value>, cart: CartSummary, text: string)
    requires HasMandatory(response) && response["amount"] == Str(text)
    requires ParseDecimal(text).Some? && SameValue(ParseDecimal(text).value, cart.total)
    ensures AmountCheck(response, cart) == Valid
  {
  }

  /** The rendered cart total is always an accepted amount. */
  lemma RenderedTotalAccepted(response: map<string, Value>, cart: CartSummary)
    requires HasMandatory(response) && response["amount"] == Str(DecimalToString(cart.total))
    ensures AmountCheck(response, cart) == Valid
  {
    ParseRendered(cart.total);
  }

  /** An amount that does not convert (unparseable text, null, a list, a
      dict) or converts to another value (text or number) yields the single
      comparison error, which carries the total and the raw amount. */
  lemma AmountErrorIsSingle(response: map<string, Value>, cart: CartSummary, validCurrency: string)
    requires HasMandatory(response)
    requires DecimalOf(response["amount"]).None? || !SameValue(DecimalOf(response["amount"]).value, cart.total)
    ensures VerifySuccessResponse(response, cart, validCurrency) ==
            Rejected(AmountMismatch(cart.total, response["amount"]))
  {
  }

  /** Past the amount check, a currency other than the configured one is
      rejected and the rejection carries the currency received. */
  lemma CurrencyRejected(response: map<string, Value>, cart: CartSummary, validCurrency: string)
    requires HasMandatory(response) && AmountCheck(response, cart) == Valid
    requires response["currency"] != Str(validCurrency)
    ensures VerifySuccessResponse(response, cart, validCurrency) == Rejected(InvalidCurrency(response["currency"]))
  {
  }

  /** Past the currency check, a result dict whose code is missing, empty or
      not a string is rejected. */
  lemma ResultCodeRejected(response: map<string, Value>, cart: CartSummary, validCurrency: string)
    requires HasMandatory(response) && AmountCheck(response, cart) == Valid
    requires response["currency"] == Str(validCurrency) && response["result"].Dict?
    requires var code := Get(response["result"].fields, "code"); !code.Str? || code.s == []
    ensures VerifySuccessResponse(response, cart, validCurrency) == Rejected(InvalidResultCode)
  {
  }

  /** Past the result-code check, a non-empty card dict lacking a card
      field is rejected, naming the first absent one. */
  lemma CardRejected(response: map<string, Value>, cart: CartSummary, validCurrency: string)
    requires HasMandatory(response) && AmountCheck(response, cart) == Valid
    requires CurrencyCheck(response, validCurrency) == Valid && ResultCodeCheck(response) == Valid
    requires "card" in response && response["card"].Dict? && response["card"].fields != map[]
    requires exists j :: 0 <= j < |CardFields| && CardFields[j] !in response["card"].fields
    ensures exists k :: 0 <= k < |CardFields|
                        && VerifySuccessResponse(response, cart, validCurrency) == Rejected(MissingCardField(CardFields[k]))
                        && CardFields[k] !in response["card"].fields
                        && forall j :: 0 <= j < k ==> CardFields[j] in response["card"].fields
  {
    CardDictCheck(response);
  }

  /** Past the card check, an item count other than the cart's is rejected,
      the rejection carrying both counts. */
  lemma ItemCountRejected(response: map<string, Value>, cart: CartSummary, validCurrency: string, n: nat)
    requires HasMandatory(response) && AmountCheck(response, cart) == Valid
    requires CurrencyCheck(response, validCurrency) == Valid && ResultCodeCheck(response) == Valid
    requires CardCheck(response) == Valid
    requires var c := GetOr(response, "cart", Dict(map[])); c.Dict? && Len(GetOr(c.fields, "items", List([]))) == Ok(n)
    requires n != cart.itemCount
    ensures VerifySuccessResponse(response, cart, validCurrency) == Rejected(ItemCountMismatch(cart.itemCount, n))
  {
  }

  /** An absent or empty card passes the card check. */
  lemma NoCardPasses(response: map<string, Value>)
    requires "card" !in response || response["card"] == Dict(map[]) || response["card"] == Null
    ensures CardCheck(response) == Valid
  {
  }

  /** A card dict passes exactly when it has every card field, and otherwise
      the first absent one is named. */
  lemma CardDictCheck(response: map<string, Value>)
    requires "card" in response && response["card"].Dict? && response["card"].fields != map[]
    ensures CardCheck(response) == Valid <==>
            forall j :: 0 <= j < |CardFields| ==> CardFields[j] in response["card"].fields
    ensures CardCheck(response) != Valid ==>
            exists k :: 0 <= k < |CardFields| && CardCheck(response) == Rejected(MissingCardField(CardFields[k]))
                        && CardFields[k] !in response["card"].fields
                        && forall j :: 0 <= j < k ==> CardFields[j] in response["card"].fields
  {
    FirstMissingFirst(response["card"], CardFields);
  }

  /** An absent cart, or one without items, counts as zero items. */
  lemma AbsentItemsCountZero(response: map<string, Value>, cart: CartSummary)
    requires "cart" !in response || (response["cart"].Dict? && "items" !in response["cart"].fields)
    ensures ItemCountCheck(response, cart) == Valid <==> cart.itemCount == 0
  {
  }

  /** The validator raises a Python error only for a result that is not a
      dict, a non-empty card that is not a container, a `cart` that is not a
      dict, or items without a length. */
  lemma CrashCauses(response: map<string, Value>, cart: CartSummary, validCurrency: string)
    requires VerifySuccessResponse(response, cart, validCurrency).Crashed?
    ensures HasMandatory(response)
    ensures var card := GetOr(response, "card", Dict(map[]));
            var c := GetOr(response, "cart", Dict(map[]));
            !response["result"].Dict?
            || (Truthy(card) && !(card.Dict? || card.Str? || card.List?))
            || !c.Dict?
            || (c.Dict? && Len(GetOr(c.fields, "items", List([]))).Err?)
  {
    var card := GetOr(response, "card", Dict(map[]));
    if Truthy(card) && (card.Dict? || card.Str? || card.List?) {
      FirstMissingFirst(card, CardFields);
    }
  }
}
