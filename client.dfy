/** The HyperPay API client: classification of gateway result codes, the
    acceptance gates of checkout creation and checkout-status verification,
    and the cached OAuth access token (client-credentials grant, section 4.4
    of RFC 6749) that every API call first makes sure of.

    Time is whole seconds.  A call to the gateway becomes its parsed JSON
    reply, or `Failed` when the request, the HTTP status or the JSON decoding
    failed. */
module Client {

  import opened PyValues
  import opened Text
  import opened Decimals
  import opened Audit

  datatype PaymentStatus = SUCCESS | PENDING | FAILURE

  /** The result code of a freshly created checkout. */
  const CheckoutCreatedCode: string := "000.200.100"

  // The five start-anchored result-code patterns, one predicate each.

  /** `^(000\.000\.|000\.100\.1|000\.[36])`: successfully processed. */
  predicate IsSuccessCode(c: string) {
    StartsWith(c, "000.000.") || StartsWith(c, "000.100.1")
    || (StartsWith(c, "000.") && |c| > 4 && (c[4] == '3' || c[4] == '6'))
  }

  /** `^(000\.000\.|000\.100\.1|000\.[36]|000\.400\.[1][12]0)`: what the
      checkout-status check accepts as processed. */
  predicate IsProcessedCode(c: string) {
    StartsWith(c, "000.000.") || StartsWith(c, "000.100.1")
    || (StartsWith(c, "000.") && |c| > 4 && (c[4] == '3' || c[4] == '6'))
    || (StartsWith(c, "000.400.1") && |c| > 10 && (c[9] == '1' || c[9] == '2') && c[10] == '0')
  }

  predicate IsBinaryDigit(ch: char) { ch == '0' || ch == '1' }

  /** `^(000\.400\.0[^3]|000\.400\.[0-1]{2}0)`: successful, but flagged for
      manual review. */
  predicate IsManualReviewCode(c: string) {
    (StartsWith(c, "000.400.0") && |c| > 9 && c[9] != '3')
    || (StartsWith(c, "000.400.") && |c| > 10 && IsBinaryDigit(c[8]) && IsBinaryDigit(c[9]) && c[10] == '0')
  }

  /** `^(000\.200)`: pending, may change soon. */
  predicate IsPendingChangeableSoonCode(c: string) {
    StartsWith(c, "000.200")
  }

  /** `^(800\.400\.5|100\.400\.500)`: pending, may change only after days. */
  predicate IsPendingNotChangeableSoonCode(c: string) {
    StartsWith(c, "800.400.5") || StartsWith(c, "100.400.500")
  }

  /** The characters that tell the pattern families apart: the first and the
      fifth. */
  lemma CodeFamilies(c: string)
    ensures IsPendingChangeableSoonCode(c) ==> |c| > 4 && c[4] == '2'
    ensures IsPendingNotChangeableSoonCode(c) ==> |c| > 0 && c[0] != '0'
    ensures IsSuccessCode(c) ==> |c| > 4 && c[0] == '0' && c[4] in "0136"
    ensures IsManualReviewCode(c) ==> |c| > 4 && c[4] == '4'
  {
    if StartsWith(c, "000.200") { StartsWithAt(c, "000.200", 4); }
    if StartsWith(c, "800.400.5") { StartsWithAt(c, "800.400.5", 0); }
    if StartsWith(c, "100.400.500") { StartsWithAt(c, "100.400.500", 0); }
    if StartsWith(c, "000.000.") { StartsWithAt(c, "000.000.", 0); StartsWithAt(c, "000.000.", 4); }
    if StartsWith(c, "000.100.1") { StartsWithAt(c, "000.100.1", 0); StartsWithAt(c, "000.100.1", 4); }
    if StartsWith(c, "000.") { StartsWithAt(c, "000.", 0); }
    if StartsWith(c, "000.400.0") { StartsWithAt(c, "000.400.0", 4); }
    if StartsWith(c, "000.400.") { StartsWithAt(c, "000.400.", 4); }
  }

  /** The classification of a present result code: the patterns are tried in
      order and the first match wins; no match means failure.  PENDING comes
      exactly from the first pattern, and SUCCESS exactly from the success
      pattern, which the two pending patterns before it never shadow. */
  function ClassifyCode(c: string): (r: PaymentStatus)
    ensures r == PENDING <==> IsPendingChangeableSoonCode(c)
    ensures r == SUCCESS <==> IsSuccessCode(c)
    ensures r == FAILURE <==> !IsPendingChangeableSoonCode(c) && !IsSuccessCode(c)
    ensures IsPendingNotChangeableSoonCode(c) || IsManualReviewCode(c) ==> r == FAILURE
  {
    CodeFamilies(c);
    if IsPendingChangeableSoonCode(c) then PENDING
    else if IsPendingNotChangeableSoonCode(c) then FAILURE
    else if IsSuccessCode(c) then SUCCESS
    else if IsManualReviewCode(c) then FAILURE
    else FAILURE
  }

  /** Why the client gave up: the gateway-specific exception family
      (`HyperPayError`, of which `BadGatewayResponse` is the sub-kind), or a
      Python error that escapes uncaught. */
  datatype Reason =
    | TokenRequestFailed
    | MissingAccessToken
    | CheckoutRequestFailed
    | InvalidCheckoutResponse
    | CheckoutRejected(code: Value)
    | StatusRequestFailed
    | StatusNotProcessed

  datatype ClientError =
    | HyperPayError(reason: Reason)
    | BadGatewayResponse(code: Value, paymentId: Value)
    | Raised(error: PyError)

  /** The gateway exception family, the one that callers catch. */
  predicate IsHyperPayException(e: ClientError) {
    e.HyperPayError? || e.BadGatewayResponse?
  }

  /** `data.get('result', {}).get('code')`. */
  function ResultCode(data: map<string, Value>): (r: Result<Value, PyError>)
    ensures "result" !in data ==> r == Ok(Null)
    ensures "result" in data ==> (r.Ok? <==> data["result"].Dict?)
    ensures "result" in data && data["result"].Dict? ==> r == Ok(Get(data["result"].fields, "code"))
    ensures r.Err? ==> r.error == AttributeError
  {
    GetAttr(GetOr(data, "result", Dict(map[])), "code")
  }

  /** `verify_webhook_callback_status`: a webhook payload without a truthy
      result code or without a truthy payment id is a bad gateway response;
      with both it is classified by its code, and it never fails unless the
      code is not a string. */
  function WebhookStatus(data: map<string, Value>): (r: Result<PaymentStatus, ClientError>)
    ensures ResultCode(data).Err? ==> r == Err(Raised(AttributeError))
    ensures ResultCode(data).Ok? && (!Truthy(ResultCode(data).value) || !Truthy(Get(data, "id")))
            ==> r == Err(BadGatewayResponse(ResultCode(data).value, Get(data, "id")))
    ensures r.Ok? <==> ResultCode(data).Ok? && ResultCode(data).value.Str? && ResultCode(data).value.s != []
                       && Truthy(Get(data, "id"))
    ensures r.Ok? ==> r.value == ClassifyCode(ResultCode(data).value.s)
    ensures r.Err? && r.error.Raised? ==>
              !IsHyperPayException(r.error) &&
              (ResultCode(data).Err? || (Truthy(ResultCode(data).value) && !ResultCode(data).value.Str?))
    ensures (ResultCode(data).Ok? && Truthy(ResultCode(data).value) && !ResultCode(data).value.Str?
             && Truthy(Get(data, "id"))) ==> r == Err(Raised(TypeError))
  {
    match ResultCode(data)
    case Err(e) => Err(Raised(e))
    case Ok(code) =>
      var paymentId := Get(data, "id");
      if !Truthy(code) || !Truthy(paymentId) then Err(BadGatewayResponse(code, paymentId))
      else if !code.Str? then Err(Raised(TypeError))
      else Ok(ClassifyCode(code.s))
  }

  /** `s` starts with `p` followed by `ch` exactly when it starts with
      `p + [ch]`. */
  lemma StartsWithExtend(s: string, p: string, ch: char)
    ensures StartsWith(s, p + [ch]) <==> StartsWith(s, p) && |s| > |p| && s[|p|] == ch
  {
    if StartsWith(s, p + [ch]) {
      assert s[..|p|] == s[..|p| + 1][..|p|];
      StartsWithAt(s, p + [ch], |p|);
    }
    if StartsWith(s, p) && |s| > |p| && s[|p|] == ch {
      assert s[..|p| + 1] == s[..|p|] + [s[|p|]];
    }
  }

  /** The processed pattern is the success pattern plus the two settled
      review codes `000.400.110` and `000.400.120`, so every code the
      classifier calls SUCCESS is also accepted by the status check. */
  lemma ProcessedCodes(c: string)
    ensures IsProcessedCode(c) <==>
            IsSuccessCode(c) || StartsWith(c, "000.400.110") || StartsWith(c, "000.400.120")
    ensures ClassifyCode(c) == SUCCESS ==> IsProcessedCode(c)
  {
    StartsWithExtend(c, "000.400.1", '1');
    StartsWithExtend(c, "000.400.1", '2');
    StartsWithExtend(c, "000.400.11", '0');
    StartsWithExtend(c, "000.400.12", '0');
    assert "000.400.1" + ['1'] == "000.400.11" && "000.400.11" + ['0'] == "000.400.110";
    assert "000.400.1" + ['2'] == "000.400.12" && "000.400.12" + ['0'] == "000.400.120";
    if StartsWith(c, "000.400.110") || StartsWith(c, "000.400.120") {
      assert |c| > 10;
    }
  }

  /** The two settled review codes pass the status check, yet a webhook
      carrying them is classified as a failure. */
  lemma SettledReviewCodes(c: string)
    requires StartsWith(c, "000.400.110") || StartsWith(c, "000.400.120")
    ensures IsProcessedCode(c)
    ensures ClassifyCode(c) == FAILURE
  {
    ProcessedCodes(c);
    if StartsWith(c, "000.400.110") {
      StartsWithAt(c, "000.400.110", 4);
    } else {
      StartsWithAt(c, "000.400.120", 4);
    }
    CodeFamilies(c);
  }

  /** The classifications the client's tests pin down. */
  lemma ClassifierExamples()
    ensures ClassifyCode("000.000.000") == SUCCESS
    ensures ClassifyCode("000.200.100") == PENDING
    ensures ClassifyCode("800.400.500") == FAILURE
    ensures ClassifyCode("000.400.010") == FAILURE
    ensures ClassifyCode("999.999.999") == FAILURE
  {
    assert StartsWith("000.000.000", "000.000.");
    assert StartsWith("000.200.100", "000.200");
    assert StartsWith("800.400.500", "800.400.5");
    assert IsManualReviewCode("000.400.010") by {
      assert StartsWith("000.400.010", "000.400.0");
    }
    assert !IsPendingChangeableSoonCode("999.999.999") && !IsSuccessCode("999.999.999") by {
      CodeFamilies("999.999.999");
    }
  }

  /** The three fields a created checkout hands back. */
  datatype Checkout = Checkout(checkoutId: Value, nonceId: Value, integrity: Value)

  /** The result-code gate of `create_checkout`: only a `result.code` equal to
      the checkout-created code yields the checkout, built from `id`, `ndc`
      and `integrity`.  A result that is a string or list mentioning "code"
      cannot be indexed by a key and fails with a type error. */
  function CheckoutResult(data: map<string, Value>): (r: Result<Checkout, ClientError>)
    ensures r.Ok? <==> "result" in data && data["result"].Dict?
                       && Get(data["result"].fields, "code") == Str(CheckoutCreatedCode)
    ensures r.Ok? ==> r.value == Checkout(Get(data, "id"), Get(data, "ndc"), Get(data, "integrity"))
    ensures "result" !in data ==> r == Err(HyperPayError(InvalidCheckoutResponse))
    ensures "result" in data && data["result"].Dict? && "code" in data["result"].fields
            && data["result"].fields["code"] != Str(CheckoutCreatedCode)
            ==> r == Err(HyperPayError(CheckoutRejected(data["result"].fields["code"])))
    ensures r.Err? && !IsHyperPayException(r.error) ==>
              r.error == Raised(TypeError) && "result" in data && !data["result"].Dict?
    ensures "result" in data && !data["result"].Dict? && Contains(data["result"], "code") != Ok(false)
            ==> r == Err(Raised(TypeError))
    ensures "result" in data && Contains(data["result"], "code") == Ok(false)
            ==> r == Err(HyperPayError(InvalidCheckoutResponse))
  {
    if "result" !in data then Err(HyperPayError(InvalidCheckoutResponse))
    else
      match Contains(data["result"], "code")
      case Err(e) => Err(Raised(e))
      case Ok(present) =>
        if !present then Err(HyperPayError(InvalidCheckoutResponse))
        else if !data["result"].Dict? then Err(Raised(TypeError))
        else
          var code := data["result"].fields["code"];
          if code != Str(CheckoutCreatedCode) then Err(HyperPayError(CheckoutRejected(code)))
          else Ok(Checkout(Get(data, "id"), Get(data, "ndc"), Get(data, "integrity")))
  }

  /** The result-code gate of `verify_checkout_status`: the reply comes back
      unchanged exactly when its code is a string of the processed pattern. */
  function CheckoutStatusResult(data: map<string, Value>): (r: Result<map<string, Value>, ClientError>)
    ensures r.Ok? <==> ResultCode(data).Ok? && ResultCode(data).value.Str? && IsProcessedCode(ResultCode(data).value.s)
    ensures r.Ok? ==> r.value == data
    ensures ResultCode(data).Ok? && !Truthy(ResultCode(data).value) ==> r == Err(HyperPayError(StatusNotProcessed))
    ensures r.Err? && !IsHyperPayException(r.error) ==>
            ResultCode(data).Err? || (Truthy(ResultCode(data).value) && !ResultCode(data).value.Str?)
    ensures ResultCode(data).Err? ==> r == Err(Raised(AttributeError))
    ensures ResultCode(data).Ok? && Truthy(ResultCode(data).value) && !ResultCode(data).value.Str?
            ==> r == Err(Raised(TypeError))
    ensures ResultCode(data).Ok? && ResultCode(data).value.Str? && !IsProcessedCode(ResultCode(data).value.s)
            ==> r == Err(HyperPayError(StatusNotProcessed))
  {
    match ResultCode(data)
    case Err(e) => Err(Raised(e))
    case Ok(code) =>
      if !Truthy(code) then Err(HyperPayError(StatusNotProcessed))
      else if !code.Str? then Err(Raised(TypeError))
      else if IsProcessedCode(code.s) then Ok(data)
      else Err(HyperPayError(StatusNotProcessed))
  }

  /** `int(text)` for an optional sign followed by decimal digits. */
  function ParseInt(text: string): Option<int> {
    var signed := |text| > 0 && (text[0] == '-' || text[0] == '+');
    var digits := if signed then text[1..] else text;
    if |digits| >= 1 && AllDigits(digits) then
      Some(if signed && text[0] == '-' then -(DigitsValue(digits) as int) else DigitsValue(digits))
    else None
  }

  /** `str(n)`. */
  function IntToString(n: int): string {
    if n < 0 then "-" + NatToString(-n) else NatToString(n)
  }

  /** The text of any integer parses back to it. */
  lemma ParseIntRendered(n: int)
    ensures ParseInt(IntToString(n)) == Some(n)
  {
    var m: nat := if n < 0 then -n else n;
    NatToStringValue(m);
    var digits := NatToString(m);
    if n < 0 {
      assert ("-" + digits)[0] == '-' && ("-" + digits)[1..] == digits;
    } else {
      assert IsDigit(digits[0]);
    }
  }

  /** Python's `int(v)` on a decoded JSON value. */
  function PyInt(v: Value): (r: Result<int, PyError>)
    ensures v.Int? ==> r == Ok(v.i)
    ensures v.Str? ==> (r.Ok? <==> ParseInt(v.s).Some?) && (r.Ok? ==> r.value == ParseInt(v.s).value)
    ensures r.Err? ==> (r.error == ValueError <==> v.Str?)
    ensures r.Err? ==> r.error == ValueError || r.error == TypeError
    ensures v.Bool? ==> r == Ok(if v.b then 1 else 0)
    ensures !(v.Int? || v.Bool? || v.Str?) ==> r == Err(TypeError)
  {
    match v
    case Int(i) => Ok(i)
    case Bool(b) => Ok(if b then 1 else 0)
    case Str(s) => (match ParseInt(s) case Some(n) => Ok(n) case None => Err(ValueError))
    case _ => Err(TypeError)
  }

  /** A gateway call: `Failed` when the request, the HTTP status or the JSON
      decoding failed, or the decoded reply. */
  datatype Reply = Failed | Replied(data: map<string, Value>)

  /** The cached token and its expiry instant. */
  datatype TokenState = TokenState(accessToken: Value, expiry: Option<int>)

  /** The state after a token operation, and the error it raised if any. */
  datatype TokenOutcome = TokenOutcome(state: TokenState, error: Option<ClientError>)

  /** A new token is needed when the token is empty, the expiry is unknown,
      or the expiry instant has been reached. */
  predicate NeedsToken(st: TokenState, now: int) {
    !Truthy(st.accessToken) || st.expiry.None? || now >= st.expiry.value
  }

  /** `int(data.get('expires_in', 0))`. */
  function ExpiresIn(data: map<string, Value>): Result<int, PyError> {
    PyInt(GetOr(data, "expires_in", Int(0)))
  }

  /** `_generate_access_token`: on a reply whose lifetime converts, the
      expiry becomes `now + lifetime - 30` and then the token becomes the
      reply's `access_token`; an empty token raises afterwards.  A failed
      call or an unconvertible lifetime leaves both fields as they were. */
  function AfterGenerate(st: TokenState, now: int, reply: Reply): (o: TokenOutcome)
    ensures o.error == None <==> reply.Replied? && ExpiresIn(reply.data).Ok?
                                 && Truthy(Get(reply.data, "access_token"))
    ensures reply.Replied? && ExpiresIn(reply.data).Ok? ==>
            o.state == TokenState(Get(reply.data, "access_token"), Some(now + ExpiresIn(reply.data).value - 30))
    ensures !(reply.Replied? && ExpiresIn(reply.data).Ok?) ==> o.state == st && o.error.Some?
    ensures o.error == Some(HyperPayError(MissingAccessToken)) <==>
            reply.Replied? && ExpiresIn(reply.data).Ok? && !Truthy(Get(reply.data, "access_token"))
    ensures o.error.Some? && !IsHyperPayException(o.error.value) ==> o.error.value == Raised(TypeError)
    ensures reply.Failed? ==> o == TokenOutcome(st, Some(HyperPayError(TokenRequestFailed)))
    ensures reply.Replied? && ExpiresIn(reply.data) == Err(ValueError) ==>
              o == TokenOutcome(st, Some(HyperPayError(TokenRequestFailed)))
    ensures reply.Replied? && ExpiresIn(reply.data) == Err(TypeError) ==> o == TokenOutcome(st, Some(Raised(TypeError)))
  {
    match reply
    case Failed => TokenOutcome(st, Some(HyperPayError(TokenRequestFailed)))
    case Replied(data) =>
      match ExpiresIn(data)
      case Err(e) => TokenOutcome(st, Some(if e == ValueError then HyperPayError(TokenRequestFailed) else Raised(e)))
      case Ok(lifetime) =>
        var token := Get(data, "access_token");
        TokenOutcome(TokenState(token, Some(now + lifetime - 30)),
                     if Truthy(token) then None else Some(HyperPayError(MissingAccessToken)))
  }

  /** `_ensure_token`: the generator runs exactly when a token is needed;
      otherwise nothing changes and nothing is raised. */
  function AfterEnsure(st: TokenState, now: int, reply: Reply): (o: TokenOutcome)
    ensures !NeedsToken(st, now) ==> o == TokenOutcome(st, None)
    ensures NeedsToken(st, now) ==> o == AfterGenerate(st, now, reply)
  {
    if NeedsToken(st, now) then AfterGenerate(st, now, reply) else TokenOutcome(st, None)
  }

  /** Whenever `_ensure_token` returns normally, the token it leaves is
      non-empty. */
  lemma EnsuredTokenPresent(st: TokenState, now: int, reply: Reply)
    ensures AfterEnsure(st, now, reply).error == None ==> Truthy(AfterEnsure(st, now, reply).state.accessToken)
  {
  }

  /** A freshly issued token stays usable until `lifetime - 30` seconds after
      issue and is renewed from then on. */
  lemma IssuedTokenLifetime(st: TokenState, now: int, data: map<string, Value>, t: int)
    requires ExpiresIn(data).Ok? && Truthy(Get(data, "access_token"))
    ensures NeedsToken(AfterGenerate(st, now, Replied(data)).state, t) <==> t >= now + ExpiresIn(data).value - 30
  {
  }

  /** A reply without `expires_in` counts as a zero lifetime: the token
      expires 30 seconds before it was issued and is renewed on the next
      call. */
  lemma MissingLifetimeIsZero(st: TokenState, now: int, data: map<string, Value>)
    requires "expires_in" !in data
    ensures AfterGenerate(st, now, Replied(data)).state.expiry == Some(now - 30)
    ensures NeedsToken(AfterGenerate(st, now, Replied(data)).state, now)
  {
  }

  /** A reply without a token raises after writing the expiry; the token is
      left empty, so the next `_ensure_token`, whenever it comes, regenerates. */
  lemma MissingTokenRegenerates(st: TokenState, now: int, data: map<string, Value>, later: int, next: Reply)
    requires ExpiresIn(data).Ok? && "access_token" !in data
    ensures AfterGenerate(st, now, Replied(data)).error == Some(HyperPayError(MissingAccessToken))
    ensures AfterGenerate(st, now, Replied(data)).state.expiry == Some(now + ExpiresIn(data).value - 30)
    ensures AfterEnsure(AfterGenerate(st, now, Replied(data)).state, later, next)
            == AfterGenerate(AfterGenerate(st, now, Replied(data)).state, later, next)
  {
  }

  /** A token whose declared lifetime is 30 seconds or less is stale as soon
      as it is stored: every call renews it. */
  lemma ShortLifetimeIsStale(st: TokenState, now: int, data: map<string, Value>)
    requires ExpiresIn(data).Ok? && ExpiresIn(data).value <= 30
    ensures NeedsToken(AfterGenerate(st, now, Replied(data)).state, now)
  {
  }

  /** The API client and its token cache. */
  class HyperPayClient {
    const slug: string
    var accessToken: Value
    var tokenExpiry: Option<int>

    constructor (slug: string)
      ensures this.slug == slug
      ensures accessToken == Null && tokenExpiry == None
    {
      this.slug := slug;
      accessToken := Null;
      tokenExpiry := None;
    }

    function Tokens(): TokenState
      reads this
    {
      TokenState(accessToken, tokenExpiry)
    }

    /** Exchanges the client credentials for a new token; `reply` is the
        token endpoint's answer. */
    method GenerateAccessToken(now: int, reply: Reply) returns (err: Option<ClientError>)
      modifies this
      ensures TokenOutcome(Tokens(), err) == AfterGenerate(old(Tokens()), now, reply)
    {
      if reply.Failed? {
        return Some(HyperPayError(TokenRequestFailed));
      }
      var lifetime := ExpiresIn(reply.data);
      if lifetime.Err? {
        return Some(if lifetime.error == ValueError then HyperPayError(TokenRequestFailed) else Raised(lifetime.error));
      }
      tokenExpiry := Some(now + lifetime.value - 30);
      accessToken := Get(reply.data, "access_token");
      if !Truthy(accessToken) {
        return Some(HyperPayError(MissingAccessToken));
      }
      return None;
    }

    /** Makes sure a usable token is cached; `reply` is what the token
        endpoint would answer if it is asked. */
    method EnsureToken(now: int, reply: Reply) returns (err: Option<ClientError>)
      modifies this
      ensures TokenOutcome(Tokens(), err) == AfterEnsure(old(Tokens()), now, reply)
    {
      if !Truthy(accessToken) || tokenExpiry.None? || now >= tokenExpiry.value {
        err := GenerateAccessToken(now, reply);
      } else {
        err := None;
      }
    }

    /** `create_checkout`: makes sure of the token, then submits the checkout;
        `reply` is the checkout endpoint's answer. */
    method CreateCheckout(now: int, tokenReply: Reply, reply: Reply) returns (r: Result<Checkout, ClientError>)
      modifies this
      ensures Tokens() == AfterEnsure(old(Tokens()), now, tokenReply).state
      ensures AfterEnsure(old(Tokens()), now, tokenReply).error.Some? ==>
              r == Err(AfterEnsure(old(Tokens()), now, tokenReply).error.value)
      ensures AfterEnsure(old(Tokens()), now, tokenReply).error.None? ==>
              r == (if reply.Failed? then Err(HyperPayError(CheckoutRequestFailed)) else CheckoutResult(reply.data))
    {
      var err := EnsureToken(now, tokenReply);
      if err.Some? {
        return Err(err.value);
      }
      if reply.Failed? {
        return Err(HyperPayError(CheckoutRequestFailed));
      }
      r := CheckoutResult(reply.data);
    }

    /** `verify_checkout_status`: makes sure of the token, queries the
        checkout status, records the raw reply in the audit log and only then
        applies the processed-code gate. */
    method VerifyCheckoutStatus(now: int, tokenReply: Reply, reply: Reply, log: AuditLog)
      returns (r: Result<map<string, Value>, ClientError>)
      modifies this, log
      ensures Tokens() == AfterEnsure(old(Tokens()), now, tokenReply).state
      ensures AfterEnsure(old(Tokens()), now, tokenReply).error.Some? ==>
              r == Err(AfterEnsure(old(Tokens()), now, tokenReply).error.value) && log.entries == old(log.entries)
      ensures AfterEnsure(old(Tokens()), now, tokenReply).error.None? && reply.Failed? ==>
              r == Err(HyperPayError(StatusRequestFailed)) && log.entries == old(log.entries)
      ensures AfterEnsure(old(Tokens()), now, tokenReply).error.None? && reply.Replied? ==>
              log.entries == old(log.entries) + [ReceivedEntry(slug, reply.data)]
              && r == CheckoutStatusResult(reply.data)
    {
      var err := EnsureToken(now, tokenReply);
      if err.Some? {
        return Err(err.value);
      }
      if reply.Failed? {
        return Err(HyperPayError(StatusRequestFailed));
      }
      log.Log(ReceivedEntry(slug, reply.data));
      r := CheckoutStatusResult(reply.data);
    }
  }
}
