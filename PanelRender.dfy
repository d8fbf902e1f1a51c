/** The display defaults of the panel (public/app.js): how a contact row of
    the contacts table and a deal entry of the deals modal read their
    fields, with the text shown for a missing field. HTML escaping and the
    DOM itself are not modelled; what is modelled is the text each cell
    receives. */
module PanelRender {

  import opened JsValues

  /** A CRM record as the panel receives it: `{id, properties}`. */
  datatype Record = Record(id: Value, properties: Value)

  /** `(record.properties || {}).name`. */
  function Prop(r: Record, name: string): (v: Value)
    ensures r.properties.Obj? && name in r.properties.fields ==> v == r.properties.fields[name]
    ensures !(r.properties.Obj? && name in r.properties.fields) ==> v == Undefined
  {
    Get(Or(r.properties, Obj(map[])), name)
  }

  /** `props.name || fallback`, as the text it becomes in the page. */
  function Display(r: Record, name: string, fallback: string): (text: string)
    ensures Truthy(Prop(r, name)) ==> text == ToJsString(Prop(r, name))
    ensures !Truthy(Prop(r, name)) ==> text == fallback
  {
    ToJsString(Or(Prop(r, name), Str(fallback)))
  }

  /** The field holds a non-empty string. */
  predicate ShownAsIs(r: Record, name: string) {
    Prop(r, name).Str? && Prop(r, name).s != ""
  }

  /** A field that holds a non-empty string is shown as it is, any other
      missing or falsy field as the fallback. */
  lemma DisplayOfString(r: Record, name: string, fallback: string)
    ensures var v := Prop(r, name);
      (v.Str? && v.s != "" ==> Display(r, name, fallback) == v.s) &&
      (IsNullish(v) || v == Str("") ==> Display(r, name, fallback) == fallback)
  {
  }

  // ---------------------------------------------------------------------
  // renderContactsTable
  // ---------------------------------------------------------------------

  /** The texts of one table row: five cells, the row's contact id, and the
      contact name the "View Deals" button carries. */
  datatype ContactRow = ContactRow(
    contactId: string,
    firstname: string, lastname: string, email: string, jobtitle: string, company: string,
    buttonName: string)

  datatype ContactsTable = NoContacts | Rows(rows: seq<ContactRow>)

  const EmptyField := ""

  function RenderContact(c: Record): ContactRow {
    var firstname := Display(c, "firstname", EmptyField);
    var lastname := Display(c, "lastname", EmptyField);
    ContactRow(
      ToJsString(c.id),
      firstname, lastname,
      Display(c, "email", EmptyField),
      Display(c, "jobtitle", EmptyField),
      Display(c, "company", EmptyField),
      firstname + " " + lastname)
  }

  /** `renderContactsTable(contacts)`: the "No contacts found" message for
      an empty list, otherwise one row per contact in order. */
  function RenderContactsTable(contacts: seq<Record>): (t: ContactsTable)
    ensures t.NoContacts? <==> |contacts| == 0
    ensures t.Rows? ==> |t.rows| == |contacts|
    ensures t.Rows? ==> forall i :: 0 <= i < |contacts| ==> t.rows[i] == RenderContact(contacts[i])
  {
    if |contacts| == 0 then NoContacts
    else Rows(seq(|contacts|, i requires 0 <= i < |contacts| => RenderContact(contacts[i])))
  }

  /** A contact whose five fields are non-empty strings shows them as they
      are, and its button carries "first last". */
  lemma ContactOfStrings(c: Record)
    requires ShownAsIs(c, "firstname") && ShownAsIs(c, "lastname") && ShownAsIs(c, "email")
    requires ShownAsIs(c, "jobtitle") && ShownAsIs(c, "company")
    ensures var row := RenderContact(c);
      && row.firstname == Prop(c, "firstname").s && row.lastname == Prop(c, "lastname").s
      && row.email == Prop(c, "email").s && row.jobtitle == Prop(c, "jobtitle").s
      && row.company == Prop(c, "company").s
      && row.buttonName == Prop(c, "firstname").s + " " + Prop(c, "lastname").s
  {
    DisplayOfString(c, "firstname", EmptyField);
    DisplayOfString(c, "lastname", EmptyField);
    DisplayOfString(c, "email", EmptyField);
    DisplayOfString(c, "jobtitle", EmptyField);
    DisplayOfString(c, "company", EmptyField);
  }

  /** A contact without properties shows every cell empty, and its button
      carries the name " ". */
  lemma ContactWithoutProperties(c: Record)
    requires !Truthy(c.properties)
    ensures var row := RenderContact(c);
      && row.firstname == "" && row.lastname == "" && row.email == ""
      && row.jobtitle == "" && row.company == "" && row.buttonName == " "
  {
  }

  // ---------------------------------------------------------------------
  // renderDealsList and the empty case of viewContactDeals
  // ---------------------------------------------------------------------

  datatype DealItem = DealItem(dealname: string, amount: string, stage: string)

  datatype DealsList = NoSubscriptions | Items(items: seq<DealItem>)

  const UnnamedDeal := "Unnamed Deal"
  const ZeroAmount := "0"
  const UnknownStage := "Unknown"

  function RenderDeal(d: Record): DealItem {
    DealItem(
      Display(d, "dealname", UnnamedDeal),
      Display(d, "amount", ZeroAmount),
      Display(d, "dealstage", UnknownStage))
  }

  /** The deals modal: "No subscriptions found" for an empty list,
      otherwise one entry per deal in order. */
  function RenderDealsList(deals: seq<Record>): (l: DealsList)
    ensures l.NoSubscriptions? <==> |deals| == 0
    ensures l.Items? ==> |l.items| == |deals|
    ensures l.Items? ==> forall i :: 0 <= i < |deals| ==> l.items[i] == RenderDeal(deals[i])
  {
    if |deals| == 0 then NoSubscriptions
    else Items(seq(|deals|, i requires 0 <= i < |deals| => RenderDeal(deals[i])))
  }

  /** A deal without properties shows the three defaults; a deal whose
      fields are non-empty strings shows them as they are. */
  lemma DealDefaults(d: Record)
    ensures !Truthy(d.properties) ==>
      RenderDeal(d) == DealItem(UnnamedDeal, ZeroAmount, UnknownStage)
    ensures ShownAsIs(d, "dealname") && ShownAsIs(d, "amount") && ShownAsIs(d, "dealstage") ==>
      RenderDeal(d) == DealItem(Prop(d, "dealname").s, Prop(d, "amount").s, Prop(d, "dealstage").s)
  {
    DisplayOfString(d, "dealname", UnnamedDeal);
    DisplayOfString(d, "amount", ZeroAmount);
    DisplayOfString(d, "dealstage", UnknownStage);
  }

  /** A deal closed from the panel's deal form lists with its stage as
      "closedwon", never as the default. */
  lemma WonDealStage(d: Record)
    requires d.properties.Obj? && "dealstage" in d.properties.fields
    requires d.properties.fields["dealstage"] == Str("closedwon")
    ensures RenderDeal(d).stage == "closedwon"
  {
  }
}
