/** The two deal rules of the proxy (server.js): the body of the deal-create
    call, with zero or one association edge (POST /api/deals), and the
    two-phase lookup of a contact's deals with its short-circuit on an empty
    association list (GET /api/contacts/:contactId/deals). */
module ServerDeals {

  import opened Wrappers
  import opened JsValues
  import opened ServerErrors
  import Text

  // ---------------------------------------------------------------------
  // POST /api/deals
  // ---------------------------------------------------------------------

  /** One entry of an edge's `types`. */
  datatype AssociationType = AssociationType(associationCategory: string, associationTypeId: int)

  /** An association edge `{to: {id}, types}`. */
  datatype AssociationEdge = AssociationEdge(toId: Value, types: seq<AssociationType>)

  /** The body sent to the CRM's deal-create endpoint. */
  datatype DealCreateBody = DealCreateBody(properties: Value, associations: seq<AssociationEdge>)

  /** The provider-defined deal-to-contact association type. */
  const DealToContact := AssociationType("HUBSPOT_DEFINED", 3)

  /** The deal-create body built from the request's `dealProperties` and
      `contactId`: the properties unchanged, and one edge to the contact
      exactly when `contactId` is truthy. */
  function DealCreatePayload(dealProperties: Value, contactId: Value): (b: DealCreateBody)
    ensures b.properties == dealProperties
    ensures Truthy(contactId) ==> |b.associations| == 1
    ensures !Truthy(contactId) ==> b.associations == []
    ensures forall e :: e in b.associations ==> e.toId == contactId && e.types == [DealToContact]
  {
    DealCreateBody(
      dealProperties,
      if Truthy(contactId) then [AssociationEdge(contactId, [DealToContact])] else [])
  }

  /** The contacts a deal-create body associates the new deal with. */
  function AssociatedContacts(b: DealCreateBody): (ids: seq<Value>)
    ensures |ids| == |b.associations|
    ensures forall i :: 0 <= i < |ids| ==> ids[i] == b.associations[i].toId
  {
    seq(|b.associations|, i requires 0 <= i < |b.associations| => b.associations[i].toId)
  }

  /** Reading the contacts back from the body gives `[contactId]` when it is
      truthy and nothing otherwise: a deal never gets more than one edge,
      and never one to a falsy id. */
  lemma AssociatedContactsOfPayload(dealProperties: Value, contactId: Value)
    ensures AssociatedContacts(DealCreatePayload(dealProperties, contactId))
         == if Truthy(contactId) then [contactId] else []
  {
    var ids := AssociatedContacts(DealCreatePayload(dealProperties, contactId));
    if Truthy(contactId) {
      assert |ids| == 1 && ids[0] == contactId;
    }
  }

  /** The whole handler: relay the create call's result. */
  function CreateDealReply(outcome: Outcome): (r: Reply)
    ensures outcome.Ok? ==> r == Reply(OkStatus, outcome.data)
    ensures outcome.Err? ==> r == NormalizeError(CreateDeal, outcome.failure)
  {
    Relay(CreateDeal, outcome)
  }

  // ---------------------------------------------------------------------
  // GET /api/contacts/:contactId/deals
  // ---------------------------------------------------------------------

  /** The fixed projection of a deal, shared with GET /api/deals. */
  const DealProjection: seq<string> := ["dealname", "amount", "dealstage", "closedate", "pipeline"]

  /** The body of the batch-read call: one `{id}` input per deal. */
  datatype BatchReadBody = BatchReadBody(inputs: seq<Value>, properties: seq<string>)

  /** What the handler does once the association lookup has answered. */
  datatype ContactDealsPlan =
    | RespondEmpty                   // `{results: []}`, no second call
    | BatchRead(body: BatchReadBody) // exactly one batch-read call
    | Throws                         // a TypeError inside the handler

  /** `{id}` for one deal id. */
  function IdInput(id: Value): (v: Value)
    ensures v.Obj? && v.fields.Keys == {"id"}
    ensures Get(v, "id") == id
  {
    Obj(map["id" := id])
  }

  /** `results.length > 0`: an array or a string with elements, or an
      object whose own `length` is a positive number. */
  predicate HasPositiveLength(results: Value) {
    || (results.Arr? && |results.items| > 0)
    || (results.Str? && |results.s| > 0)
    || (results.Obj? && "length" in results.fields &&
        results.fields["length"].Num? && results.fields["length"].n > 0)
  }

  /** The second phase, decided from the association lookup's body `data`:
      `data.results` truthy with a positive length leads to one batch read
      of `results.map(r => r.id)`; anything else answers `{results: []}`.
      Reading `.results` of a null body, `.id` of a null entry, or calling
      `.map` on a string throws. */
  function PlanContactDeals(data: Value): (p: ContactDealsPlan)
  {
    if IsNullish(data) then Throws
    else
      var results := Get(data, "results");
      if !(Truthy(results) && HasPositiveLength(results)) then RespondEmpty
      else if !results.Arr? then Throws
      else if exists i :: 0 <= i < |results.items| && IsNullish(results.items[i]) then Throws
      else
        var items := results.items;
        BatchRead(BatchReadBody(
          seq(|items|, i requires 0 <= i < |items| => IdInput(Get(items[i], "id"))),
          DealProjection))
  }

  /** A well-formed association list: an array of association records. */
  predicate IsRecordList(results: Value) {
    results.Arr? && forall i :: 0 <= i < |results.items| ==> results.items[i].Obj?
  }

  /** Missing, null or empty `results` short-circuits: the reply is empty
      and no batch read is planned. */
  lemma EmptyAssociationsShortCircuit(data: Value)
    requires data.Obj?
    requires var results := Get(data, "results"); IsNullish(results) || results == Arr([])
    ensures PlanContactDeals(data) == RespondEmpty
  {
  }

  /** A lookup body that is null, or whose `results` is a non-empty string
      or an object with a positive `length` (truthy, long, but without a
      `map` method), makes the handler throw. */
  lemma MalformedAssociationsThrow(data: Value)
    ensures IsNullish(data) ==> PlanContactDeals(data) == Throws
    ensures data.Obj? && Get(data, "results").Str? && Get(data, "results").s != "" ==>
      PlanContactDeals(data) == Throws
    ensures var length := Get(Get(data, "results"), "length");
      data.Obj? && Get(data, "results").Obj? && length.Num? && length.n > 0 ==>
        PlanContactDeals(data) == Throws
  {
  }

  /** A null or undefined entry in a non-empty association list makes
      `r.id` throw. */
  lemma NullAssociationThrows(data: Value, i: nat)
    requires data.Obj? && Get(data, "results").Arr?
    requires i < |Get(data, "results").items| && IsNullish(Get(data, "results").items[i])
    ensures PlanContactDeals(data) == Throws
  {
  }

  /** A non-empty list of association records leads to exactly one batch
      read whose inputs are the records' ids, in order and one per record,
      with the fixed deal projection. */
  lemma NonEmptyAssociationsBatchRead(data: Value)
    requires data.Obj?
    requires var results := Get(data, "results"); IsRecordList(results) && |results.items| > 0
    ensures PlanContactDeals(data).BatchRead?
    ensures var results := Get(data, "results");
      var body := PlanContactDeals(data).body;
      && |body.inputs| == |results.items|
      && (forall i :: 0 <= i < |body.inputs| ==>
            body.inputs[i] == IdInput(Get(results.items[i], "id")))
      && body.properties == DealProjection
  {
    var results := Get(data, "results");
    assert !exists i :: 0 <= i < |results.items| && IsNullish(results.items[i]);
  }

  /** An upstream call the handler makes: the association lookup of a
      contact, or the batch read of deals. */
  datatype UpstreamCall =
    | LookupAssociations(contactId: string)
    | BatchReadDeals(body: BatchReadBody)

  /** What the handler did: the upstream calls it made, in order, and the
      reply it sent. */
  datatype Handled = Handled(calls: seq<UpstreamCall>, reply: Reply)

  /** GET /api/contacts/:contactId/deals, given the outcome of the
      association lookup, the outcome the batch read has if it is made, and
      the message of a TypeError raised inside the handler. */
  function ContactDealsHandler(contactId: string, lookup: Outcome, batch: Outcome, thrown: string): (h: Handled)
    ensures lookup.Err? ==>
      h == Handled([LookupAssociations(contactId)], NormalizeError(ContactDeals, lookup.failure))
    ensures lookup.Ok? && PlanContactDeals(lookup.data).RespondEmpty? ==>
      h == Handled([LookupAssociations(contactId)], Reply(OkStatus, Obj(map["results" := Arr([])])))
    ensures lookup.Ok? && PlanContactDeals(lookup.data).Throws? ==>
      h == Handled([LookupAssociations(contactId)], NormalizeError(ContactDeals, Failure(None, thrown)))
    ensures lookup.Ok? && PlanContactDeals(lookup.data).BatchRead? ==>
      h == Handled([LookupAssociations(contactId), BatchReadDeals(PlanContactDeals(lookup.data).body)],
                   Relay(ContactDeals, batch))
  {
    var first := LookupAssociations(contactId);
    match lookup
    case Err(f) => Handled([first], NormalizeError(ContactDeals, f))
    case Ok(data) =>
      match PlanContactDeals(data)
      case RespondEmpty => Handled([first], Reply(OkStatus, Obj(map["results" := Arr([])])))
      case Throws => Handled([first], NormalizeError(ContactDeals, Failure(None, thrown)))
      case BatchRead(body) => Handled([first, BatchReadDeals(body)], Relay(ContactDeals, batch))
  }

  /** The lookup is always the first call, at most one batch read follows,
      and a reply never depends on the answer of a call that was not
      made. */
  lemma ContactDealsCalls(contactId: string, lookup: Outcome, batch1: Outcome, batch2: Outcome, thrown: string)
    ensures var h1 := ContactDealsHandler(contactId, lookup, batch1, thrown);
      var h2 := ContactDealsHandler(contactId, lookup, batch2, thrown);
      && 1 <= |h1.calls| <= 2
      && h1.calls[0] == LookupAssociations(contactId)
      && (|h1.calls| == 2 ==> h1.calls[1].BatchReadDeals?)
      && h1.calls == h2.calls
      && (|h1.calls| == 1 ==> h1.reply == h2.reply)
  {
  }

  /** When the lookup answers with no associations the reply is
      `{results: []}` with status 200 and the lookup is the only call made,
      so the reply is the same whatever the batch read would have
      answered. */
  lemma ContactDealsEmptyReply(contactId: string, data: Value, batch: Outcome, thrown: string)
    requires data.Obj?
    requires var results := Get(data, "results"); IsNullish(results) || results == Arr([])
    ensures var h := ContactDealsHandler(contactId, Ok(data), batch, thrown);
      && h.calls == [LookupAssociations(contactId)]
      && h.reply == Reply(200, Obj(map["results" := Arr([])]))
  {
    EmptyAssociationsShortCircuit(data);
  }

  /** With associations, the second call is the batch read of the
      associated deal ids, one `{id}` per record in order, and the reply is
      its body, or its normalised error. */
  lemma ContactDealsBatchReply(contactId: string, data: Value, batch: Outcome, thrown: string)
    requires data.Obj?
    requires var results := Get(data, "results"); IsRecordList(results) && |results.items| > 0
    ensures var h := ContactDealsHandler(contactId, Ok(data), batch, thrown);
      var results := Get(data, "results");
      && |h.calls| == 2 && h.calls[0] == LookupAssociations(contactId) && h.calls[1].BatchReadDeals?
      && |h.calls[1].body.inputs| == |results.items|
      && (forall i :: 0 <= i < |results.items| ==>
            h.calls[1].body.inputs[i] == IdInput(Get(results.items[i], "id")))
      && h.calls[1].body.properties == DealProjection
      && (batch.Ok? ==> h.reply == Reply(200, batch.data))
      && (batch.Err? ==> h.reply == NormalizeError(ContactDeals, batch.failure))
  {
    NonEmptyAssociationsBatchRead(data);
  }

  /** The batch read asks for the same projection as the deal list, written
      there as one comma-separated string. */
  lemma BatchProjectionMatchesDealList()
    ensures Text.Join(DealProjection, ",") == ListDealsQuery().properties
  {
  }
}
