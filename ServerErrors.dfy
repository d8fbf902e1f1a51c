/** The proxy's uniform failure policy (server.js): every handler's `catch`
    answers with the upstream HTTP status when there is one (else 500) and a
    body `{error: <summary>, details: <upstream body or error message>}`.
    The upstream services are not modelled; what one upstream call returned
    is an input. */
module ServerErrors {

  import opened Wrappers
  import opened JsValues

  /** The `response` of an axios error: the upstream status and body. */
  datatype UpstreamResponse = UpstreamResponse(status: int, data: Value)

  /** What a `catch` block receives. An error from an upstream call carries
      the upstream response; a TypeError raised inside the handler itself, or
      a transport error, carries none. */
  datatype Failure = Failure(response: Option<UpstreamResponse>, message: string)

  /** The result of one upstream call: its response body, or the failure. */
  datatype Outcome = Ok(data: Value) | Err(failure: Failure)

  /** What a handler sends back: the HTTP status and the JSON body. */
  datatype Reply = Reply(status: int, body: Value)

  const OkStatus := 200
  const FallbackStatus := 500

  /** The five CRM endpoints that share the policy, with the summary each
      puts in `error`. */
  datatype Endpoint = ListContacts | CreateContact | ListDeals | CreateDeal | ContactDeals

  function Summary(e: Endpoint): string {
    match e
    case ListContacts => "Failed to fetch contacts"
    case CreateContact => "Failed to create contact"
    case ListDeals => "Failed to fetch deals"
    case CreateDeal => "Failed to create deal"
    case ContactDeals => "Failed to fetch deals for contact"
  }

  /** The upstream status is kept whenever there is a response carrying a
      (truthy, i.e. non-zero) status. */
  predicate HasUpstreamStatus(f: Failure) {
    f.response.Some? && f.response.value.status != 0
  }

  /** The upstream body is passed on whenever there is a response whose
      body is truthy. */
  predicate HasUpstreamBody(f: Failure) {
    f.response.Some? && Truthy(f.response.value.data)
  }

  /** `error.response?.status || 500`. */
  function ErrorStatus(f: Failure): (status: int)
    ensures HasUpstreamStatus(f) ==> status == f.response.value.status
    ensures !HasUpstreamStatus(f) ==> status == FallbackStatus
    ensures status != 0
  {
    if HasUpstreamStatus(f) then f.response.value.status else FallbackStatus
  }

  /** `error.response?.data || error.message`. */
  function ErrorDetails(f: Failure): (details: Value)
    ensures HasUpstreamBody(f) ==> details == f.response.value.data
    ensures !HasUpstreamBody(f) ==> details == Str(f.message)
  {
    Or(if f.response.Some? then f.response.value.data else Undefined, Str(f.message))
  }

  /** The JSON body `{error, details}` of every error reply. */
  function ErrorBody(summary: string, details: Value): (body: Value)
    ensures body.Obj? && body.fields.Keys == {"error", "details"}
    ensures Get(body, "error") == Str(summary) && Get(body, "details") == details
  {
    Obj(map["error" := Str(summary), "details" := details])
  }

  /** The `catch` block of a CRM endpoint: the upstream status when there
      is one (else 500), and a body of exactly `error`, naming the
      endpoint, and `details`, the upstream body when truthy or else the
      error's message. */
  function NormalizeError(e: Endpoint, f: Failure): (r: Reply)
    ensures HasUpstreamStatus(f) ==> r.status == f.response.value.status
    ensures !HasUpstreamStatus(f) ==> r.status == FallbackStatus
    ensures r.body.Obj? && r.body.fields.Keys == {"error", "details"}
    ensures Get(r.body, "error") == Str(Summary(e))
    ensures HasUpstreamBody(f) ==> Get(r.body, "details") == f.response.value.data
    ensures !HasUpstreamBody(f) ==> Get(r.body, "details") == Str(f.message)
  {
    Reply(ErrorStatus(f), ErrorBody(Summary(e), ErrorDetails(f)))
  }

  /** An endpoint that relays one upstream call: the upstream body verbatim
      with status 200 on success, the normalised error otherwise. */
  function Relay(e: Endpoint, outcome: Outcome): (r: Reply)
    ensures outcome.Ok? ==> r == Reply(OkStatus, outcome.data)
    ensures outcome.Err? ==> r == NormalizeError(e, outcome.failure)
  {
    match outcome
    case Ok(data) => Reply(OkStatus, data)
    case Err(f) => NormalizeError(e, f)
  }

  /** The policy is uniform: two endpoints answer one failure with the same
      status and details, and with different summaries. */
  lemma NormalizeErrorUniform(e1: Endpoint, e2: Endpoint, f: Failure)
    ensures NormalizeError(e1, f).status == NormalizeError(e2, f).status
    ensures Get(NormalizeError(e1, f).body, "details") == Get(NormalizeError(e2, f).body, "details")
    ensures e1 != e2 ==> Get(NormalizeError(e1, f).body, "error") != Get(NormalizeError(e2, f).body, "error")
  {
    if e1 != e2 {
      SummaryInjective(e1, e2);
    }
  }

  lemma SummaryInjective(e1: Endpoint, e2: Endpoint)
    requires e1 != e2
    ensures Summary(e1) != Summary(e2)
  {
    // The summaries differ in length or at a fixed index.
    var s1, s2 := Summary(e1), Summary(e2);
    if |s1| == |s2| {
      assert s1[10] != s2[10] || s1[11] != s2[11] || s1[15] != s2[15];
    }
  }

  /** The fixed query of the two list endpoints (GET /api/contacts and
      GET /api/deals): the first page of at most 50 records with a fixed
      property projection. */
  datatype ListQuery = ListQuery(objectType: string, limit: int, properties: string)

  const PageLimit := 50

  function ListContactsQuery(): (q: ListQuery)
    ensures q.objectType == "contacts" && q.limit == PageLimit
    ensures q.properties == "firstname,lastname,email,phone,address"
  {
    ListQuery("contacts", PageLimit, "firstname,lastname,email,phone,address")
  }

  function ListDealsQuery(): (q: ListQuery)
    ensures q.objectType == "deals" && q.limit == PageLimit
    ensures q.properties == "dealname,amount,dealstage,closedate,pipeline"
  {
    ListQuery("deals", PageLimit, "dealname,amount,dealstage,closedate,pipeline")
  }

  /** POST /api/contacts forwards the request's `properties` untouched,
      wrapped as `{properties}`. */
  function CreateContactBody(requestBody: Value): (b: Value)
    ensures b.Obj? && b.fields.Keys == {"properties"}
    ensures Get(b, "properties") == Get(requestBody, "properties")
  {
    Obj(map["properties" := Get(requestBody, "properties")])
  }
}
