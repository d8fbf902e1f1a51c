/** POST /api/ai/insights (server.js): the "feature not configured" guard,
    the prompt template, the request to the language-model API, and the
    classification of its errors. The language model itself is not
    modelled: what the call returned is an input. */
module ServerInsights {

  import opened Wrappers
  import opened JsValues
  import opened ServerErrors
  import Text

  // ---------------------------------------------------------------------
  // The prompt
  // ---------------------------------------------------------------------

  const Intro := "You are a customer success analyst for Breezy, a smart thermostat company. Analyze this customer data and provide actionable insights.\n\n"

  const NotProvided := "Not provided"

  const SubscriptionHeading := "Subscription Information:"

  const FreeTrialLine := "No subscription data yet - " + "customer is in free trial period."

  const Instructions :=
    "\n\nProvide a structured analysis using this exact format:\n\n" +
    "**Customer Engagement Level:**\n[1-2 sentences about engagement]\n\n" +
    "**Upsell/Retention Recommendations:**\n[1-2 sentences with specific recommendations]\n\n" +
    "**Next Best Action:**\n[1-2 sentences with clear action items]\n\n" +
    "Keep it concise, actionable, and use the exact section headers shown above."

  /** `${contactData.key || 'Not provided'}`. */
  function OrNotProvided(v: Value): string {
    ToJsString(Or(v, Str(NotProvided)))
  }

  /** The customer block of the prompt. Name and email are interpolated as
      they are (a missing one reads "undefined"); phone and address fall
      back to "Not provided". */
  function CustomerSection(contact: Value): string {
    "Customer Information:\n" +
    "- Name: " + ToJsString(Get(contact, "firstname")) + " " + ToJsString(Get(contact, "lastname")) + "\n" +
    "- Email: " + ToJsString(Get(contact, "email")) + "\n" +
    "- Phone: " + OrNotProvided(Get(contact, "phone")) + "\n" +
    "- Address: " + OrNotProvided(Get(contact, "address")) + "\n\n"
  }

  /** The deal lines under the subscription heading. */
  function SubscriptionLines(deal: Value): string {
    "\n- Deal: " + ToJsString(Get(deal, "dealname")) +
    "\n- Amount: $" + ToJsString(Get(deal, "amount")) +
    "\n- Stage: " + ToJsString(Get(deal, "dealstage"))
  }

  /** The subscription block when `dealData` is truthy, the free-trial line
      otherwise. */
  function DealSection(deal: Value): string {
    if Truthy(deal) then SubscriptionHeading + SubscriptionLines(deal) else FreeTrialLine
  }

  function Prompt(contact: Value, deal: Value): string {
    Intro + CustomerSection(contact) + DealSection(deal) + Instructions
  }

  /** Where the deal block starts in the prompt. */
  function DealOffset(contact: Value): nat {
    |Intro| + |CustomerSection(contact)|
  }

  /** The prompt is the fixed introduction, the customer block, the deal
      block and the fixed instructions; cutting it at the block boundaries
      gives the deal block back. */
  lemma PromptDealSection(contact: Value, deal: Value)
    ensures var p := Prompt(contact, deal);
      && DealOffset(contact) + |Instructions| <= |p|
      && p[..|Intro|] == Intro
      && p[|p| - |Instructions|..] == Instructions
      && p[DealOffset(contact)..|p| - |Instructions|] == DealSection(deal)
  {
    Text.SlicesOfFour(Intro, CustomerSection(contact), DealSection(deal), Instructions);
  }

  /** The prompt carries the subscription block exactly when `dealData` is
      truthy: the text at the deal offset starts with "Subscription
      Information:" if and only if there is a deal. */
  lemma PromptHasSubscriptionIff(contact: Value, deal: Value)
    ensures Text.StartsWith(Prompt(contact, deal)[DealOffset(contact)..], SubscriptionHeading)
        <==> Truthy(deal)
  {
    var section := DealSection(deal);
    assert Prompt(contact, deal)[DealOffset(contact)..] == section + Instructions by {
      Text.SlicesOfFour(Intro, CustomerSection(contact), section, Instructions);
    }
    assert Text.StartsWith(section + Instructions, SubscriptionHeading) <==> Truthy(deal) by {
      assert |SubscriptionHeading| <= |section|;
      Text.StartsWithAppend(section, Instructions, SubscriptionHeading);
      if Truthy(deal) {
        Text.StartsWithAppend(SubscriptionHeading, SubscriptionLines(deal), SubscriptionHeading);
      } else {
        assert section[0] == 'N' != SubscriptionHeading[0];
      }
    }
  }

  /** With no deal the prompt does not depend on which falsy value was sent
      (`null`, `undefined`, ...). */
  lemma PromptIgnoresFalsyDeal(contact: Value, d1: Value, d2: Value)
    requires !Truthy(d1) && !Truthy(d2)
    ensures Prompt(contact, d1) == Prompt(contact, d2)
  {
  }

  /** A missing (falsy) phone, or a missing address, reads exactly as if
      the contact had the text "Not provided" there; each field falls back
      on its own. */
  lemma PromptDefaultsContactFields(fields: map<string, Value>, deal: Value, k: string)
    requires k == "phone" || k == "address"
    requires !Truthy(Get(Obj(fields), k))
    ensures Prompt(Obj(fields), deal) == Prompt(Obj(fields[k := Str(NotProvided)]), deal)
  {
    CustomerSectionDefaults(fields, k);
  }

  lemma CustomerSectionDefaults(fields: map<string, Value>, k: string)
    requires k == "phone" || k == "address"
    requires !Truthy(Get(Obj(fields), k))
    ensures CustomerSection(Obj(fields)) == CustomerSection(Obj(fields[k := Str(NotProvided)]))
  {
    var filled := Obj(fields[k := Str(NotProvided)]);
    assert Get(filled, "firstname") == Get(Obj(fields), "firstname");
    assert Get(filled, "lastname") == Get(Obj(fields), "lastname");
    assert Get(filled, "email") == Get(Obj(fields), "email");
    assert OrNotProvided(Get(filled, "phone")) == OrNotProvided(Get(Obj(fields), "phone"));
    assert OrNotProvided(Get(filled, "address")) == OrNotProvided(Get(Obj(fields), "address"));
  }

  // ---------------------------------------------------------------------
  // The guard and the call
  // ---------------------------------------------------------------------

  /** The request sent to the language-model API. */
  datatype MessagesRequest = MessagesRequest(
    apiKey: string, apiVersion: string, model: string, maxTokens: int, prompt: string)

  const ModelName := "claude-sonnet-4-20250514"
  const ApiVersion := "2023-06-01"
  const MaxTokens := 300

  const NotConfiguredError := "AI feature not configured"
  const NotConfiguredDetails := "ANTHROPIC_API_KEY not found in environment variables"

  /** What the handler does before any upstream call. */
  datatype InsightsPlan =
    | NotConfigured(reply: Reply)       // answered at once, nothing is called
    | CallModel(request: MessagesRequest)
    | Throws                            // building the prompt raised a TypeError

  /** `!process.env.ANTHROPIC_API_KEY`. */
  predicate KeyMissing(apiKey: Option<string>) {
    apiKey.None? || apiKey.value == ""
  }

  /** The first phase of the handler, from the environment's key and the
      request's `contactData` and `dealData`. */
  function PlanInsights(apiKey: Option<string>, contact: Value, deal: Value): (p: InsightsPlan)
    ensures KeyMissing(apiKey) <==> p.NotConfigured?
    ensures p.NotConfigured? ==>
      p.reply == Reply(400, ErrorBody(NotConfiguredError, Str(NotConfiguredDetails)))
    ensures p.Throws? <==> !KeyMissing(apiKey) && IsNullish(contact)
    ensures p.CallModel? ==>
      && p.request.apiKey == apiKey.value
      && p.request.prompt == Prompt(contact, deal)
      && p.request.model == ModelName && p.request.maxTokens == MaxTokens
      && p.request.apiVersion == ApiVersion
  {
    if KeyMissing(apiKey) then
      NotConfigured(Reply(400, ErrorBody(NotConfiguredError, Str(NotConfiguredDetails))))
    else if IsNullish(contact) then Throws
    else CallModel(MessagesRequest(apiKey.value, ApiVersion, ModelName, MaxTokens, Prompt(contact, deal)))
  }

  /** The guard comes first: without a key the answer is the same 400 for
      every request body, even one that would make the prompt throw. */
  lemma NotConfiguredIgnoresRequest(apiKey: Option<string>, c1: Value, d1: Value, c2: Value, d2: Value)
    requires KeyMissing(apiKey)
    ensures PlanInsights(apiKey, c1, d1) == PlanInsights(apiKey, c2, d2)
    ensures PlanInsights(apiKey, c1, d1).reply.status == 400
  {
  }

  // ---------------------------------------------------------------------
  // Error classification
  // ---------------------------------------------------------------------

  datatype AiErrorKind = Overloaded | RateLimited | AuthenticationFailed | OtherAiError

  /** `error.response?.data?.error?.type`. */
  function AiErrorType(f: Failure): Value {
    if f.response.Some? then Get(Get(f.response.value.data, "error"), "type") else Undefined
  }

  /** The if/else chain on the error type. Only the three exact strings are
      recognised; anything else, or no type at all, is "other". */
  function ClassifyAiError(errorType: Value): (k: AiErrorKind)
    ensures k == Overloaded <==> errorType == Str("overloaded_error")
    ensures k == RateLimited <==> errorType == Str("rate_limit_error")
    ensures k == AuthenticationFailed <==> errorType == Str("authentication_error")
    ensures !errorType.Str? ==> k == OtherAiError
  {
    if errorType == Str("overloaded_error") then Overloaded
    else if errorType == Str("rate_limit_error") then RateLimited
    else if errorType == Str("authentication_error") then AuthenticationFailed
    else OtherAiError
  }

  const OverloadedMessage := "Anthropic Claude API servers are experiencing high traffic. Please try again in 30-60 seconds."
  const RateLimitedMessage := "API rate limit reached. Please wait a moment before trying again."
  const AuthenticationMessage := "AI API authentication failed. Please check your API key configuration."
  const DefaultAiMessage := "Failed to generate AI insights"

  /** The user-facing `error` of each kind. */
  function AiUserMessage(k: AiErrorKind): string {
    match k
    case Overloaded => OverloadedMessage
    case RateLimited => RateLimitedMessage
    case AuthenticationFailed => AuthenticationMessage
    case OtherAiError => DefaultAiMessage
  }

  /** Reading the kind back from a user-facing message. */
  function KindOfMessage(msg: string): AiErrorKind {
    if msg == OverloadedMessage then Overloaded
    else if msg == RateLimitedMessage then RateLimited
    else if msg == AuthenticationMessage then AuthenticationFailed
    else OtherAiError
  }

  /** The four messages are distinct: the kind can be read back from the
      message the caller sees. */
  lemma AiUserMessageRoundTrip(k: AiErrorKind)
    ensures KindOfMessage(AiUserMessage(k)) == k
  {
    // The four messages have different lengths.
    assert |OverloadedMessage| == 94 && |RateLimitedMessage| == 65;
    assert |AuthenticationMessage| == 70 && |DefaultAiMessage| == 30;
  }

  /** `error.response?.data?.error?.message || error.message`. */
  function AiErrorDetails(f: Failure): (details: Value)
    ensures var upstream := AiUpstreamMessage(f);
      (Truthy(upstream) ==> details == upstream) && (!Truthy(upstream) ==> details == Str(f.message))
  {
    Or(AiUpstreamMessage(f), Str(f.message))
  }

  /** `error.response?.data?.error?.message`. */
  function AiUpstreamMessage(f: Failure): Value {
    if f.response.Some? then Get(Get(f.response.value.data, "error"), "message") else Undefined
  }

  /** The handler's `catch` block. */
  function AiErrorReply(f: Failure): (r: Reply)
    ensures r.status == ErrorStatus(f)
    ensures r.body.Obj? && r.body.fields.Keys == {"error", "details"}
    ensures Get(r.body, "error") == Str(AiUserMessage(ClassifyAiError(AiErrorType(f))))
    ensures Get(r.body, "details") == AiErrorDetails(f)
  {
    Reply(ErrorStatus(f), ErrorBody(AiUserMessage(ClassifyAiError(AiErrorType(f))), AiErrorDetails(f)))
  }

  /** An upstream `overloaded_error` gives the fixed high-traffic message,
      the upstream message as details, and the upstream status. */
  lemma OverloadedReply(status: int, upstreamMessage: string, errorFields: map<string, Value>, message: string)
    requires status != 0 && upstreamMessage != ""
    requires errorFields == map["type" := Str("overloaded_error"), "message" := Str(upstreamMessage)]
    ensures var f := Failure(Some(UpstreamResponse(status, Obj(map["error" := Obj(errorFields)]))), message);
      var r := AiErrorReply(f);
      && r.status == status
      && Get(r.body, "error") == Str(OverloadedMessage)
      && Get(r.body, "details") == Str(upstreamMessage)
  {
  }

  // ---------------------------------------------------------------------
  // The whole handler
  // ---------------------------------------------------------------------

  /** `response.data.content[0].text`: None when a step reads a property of
      `null` or `undefined` and throws. */
  function ExtractInsight(data: Value): (r: Option<Value>)
    ensures r.None? <==>
      || IsNullish(data)
      || IsNullish(Get(data, "content"))
      || IsNullish(At(Get(data, "content"), 0).value)
    ensures data.Obj? && "content" in data.fields && data.fields["content"].Arr?
            && |data.fields["content"].items| > 0 && data.fields["content"].items[0].Obj?
            ==> r == Some(Get(data.fields["content"].items[0], "text"))
  {
    match Read(data, "content")
    case None => None
    case Some(content) =>
      match At(content, 0)
      case None => None
      case Some(first) => Read(first, "text")
  }

  /** `content` may also be an object with a property "0": `content[0]`
      reads that property. */
  lemma InsightOfIndexedObject(text: string)
    ensures ExtractInsight(Obj(map["content" := Obj(map["0" := Obj(map["text" := Str(text)])])]))
         == Some(Str(text))
  {
    assert NatToString(0) == "0";
  }

  /** The reply, given the plan, the outcome of the model call, the message
      of a TypeError raised inside the handler, and the clock's timestamp. */
  function InsightsReply(plan: InsightsPlan, call: Outcome, thrown: string, timestamp: string): (r: Reply)
    ensures plan.NotConfigured? ==> r == plan.reply
    ensures plan.Throws? ==> r == AiErrorReply(Failure(None, thrown))
    ensures plan.CallModel? && call.Err? ==> r == AiErrorReply(call.failure)
    ensures plan.CallModel? && call.Ok? && ExtractInsight(call.data).None? ==>
      r == AiErrorReply(Failure(None, thrown))
    ensures plan.CallModel? && call.Ok? && ExtractInsight(call.data).Some? ==>
      && r.status == OkStatus
      && r.body.Obj? && r.body.fields.Keys == {"insight", "timestamp"}
      && Get(r.body, "insight") == ExtractInsight(call.data).value
      && Get(r.body, "timestamp") == Str(timestamp)
  {
    match plan
    case NotConfigured(reply) => reply
    case Throws => AiErrorReply(Failure(None, thrown))
    case CallModel(_) =>
      match call
      case Err(f) => AiErrorReply(f)
      case Ok(data) =>
        match ExtractInsight(data)
        case None => AiErrorReply(Failure(None, thrown))
        case Some(insight) => Reply(OkStatus, Obj(map["insight" := insight, "timestamp" := Str(timestamp)]))
  }

  /** An error raised inside the handler (no upstream response) is answered
      with status 500, the default message and the error's own message. */
  lemma InternalErrorReply(thrown: string)
    ensures var r := AiErrorReply(Failure(None, thrown));
      r.status == 500 && Get(r.body, "error") == Str(DefaultAiMessage)
      && Get(r.body, "details") == Str(thrown)
  {
  }
}
