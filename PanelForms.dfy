/** The two forms of the panel (public/app.js): the contact form, whose
    properties object is cleaned in place of empty entries before it is
    sent, and the deal form, whose properties always close the deal as won. */
module PanelForms {

  import opened JsValues
  import ServerDeals

  /** A submitted form: the value of each named field. */
  type Form = map<string, string>

  /** `formData.get(name)`: the field's text, or null when the form has no
      field of that name. */
  function FormGet(form: Form, name: string): (v: Value)
    ensures name in form ==> v == Str(form[name])
    ensures name !in form ==> v == Null
  {
    if name in form then Str(form[name]) else Null
  }

  // ---------------------------------------------------------------------
  // Contact form
  // ---------------------------------------------------------------------

  /** The entries the cleanup deletes: `=== undefined || === ''`. */
  predicate IsEmptyValue(v: Value) {
    v == Undefined || v == Str("")
  }

  /** A JavaScript object whose properties the panel adds and deletes in
      place. */
  class PropertyBag {
    var entries: map<string, Value>

    constructor (initial: map<string, Value>)
      ensures entries == initial
    {
      entries := initial;
    }

    /** `delete properties[key]`. */
    method Delete(key: string)
      modifies this
      ensures entries == old(entries) - {key}
    {
      entries := entries - {key};
    }
  }

  /** The entries left by the cleanup: exactly those whose value is not
      empty, with their values. */
  function Cleaned(m: map<string, Value>): (r: map<string, Value>)
    ensures forall k :: k in r ==> k in m && r[k] == m[k] && !IsEmptyValue(r[k])
    ensures forall k :: k in m && !IsEmptyValue(m[k]) ==> k in r
  {
    map k | k in m && !IsEmptyValue(m[k]) :: m[k]
  }

  /** The cleanup loop of `handleCreateContact`: every key of the object is
      visited once and deleted when its value is empty. The keys are taken
      in no particular order; the result does not depend on it. */
  method RemoveEmptyValues(properties: PropertyBag)
    modifies properties
    ensures properties.entries == Cleaned(old(properties.entries))
  {
    ghost var start := properties.entries;
    var remaining := properties.entries.Keys;
    while remaining != {}
      invariant remaining <= start.Keys
      invariant properties.entries ==
        map k | k in start && (k in remaining || !IsEmptyValue(start[k])) :: start[k]
      decreases remaining
    {
      var key :| key in remaining;
      if properties.entries[key] == Undefined || properties.entries[key] == Str("") {
        properties.Delete(key);
      }
      remaining := remaining - {key};
    }
  }

  /** The five fields of the contact form, in the object's key order. */
  const ContactKeys: seq<string> := ["firstname", "lastname", "email", "phone", "address"]

  /** The properties object built from the contact form: the three
      required fields as read, and the two optional ones turned into
      `undefined` when empty or missing. */
  function ContactFormEntries(form: Form): (m: map<string, Value>)
    ensures m.Keys == set k | k in ContactKeys
  {
    map[
      "firstname" := FormGet(form, "firstname"),
      "lastname" := FormGet(form, "lastname"),
      "email" := FormGet(form, "email"),
      "phone" := Or(FormGet(form, "phone"), Undefined),
      "address" := Or(FormGet(form, "address"), Undefined)]
  }

  /** `handleCreateContact` up to the create call: build the object, then
      clean it in place. */
  method CollectContactProperties(form: Form) returns (properties: PropertyBag)
    ensures fresh(properties)
    ensures properties.entries == Cleaned(ContactFormEntries(form))
  {
    properties := new PropertyBag(ContactFormEntries(form));
    RemoveEmptyValues(properties);
  }

  /** The cleaned contact properties have no key beyond the form's five. */
  lemma ContactPropertiesKeys(form: Form)
    ensures forall k :: k in Cleaned(ContactFormEntries(form)) ==> k in ContactKeys
  {
  }

  /** A required field stays unless it was submitted empty (a field the form
      lacks stays, as null), with the value that was read. */
  lemma RequiredFieldCleaned(form: Form, k: string)
    requires k == "firstname" || k == "lastname" || k == "email"
    ensures var p := Cleaned(ContactFormEntries(form));
      && (k in p <==> !(k in form && form[k] == ""))
      && (k in p ==> p[k] == FormGet(form, k))
  {
    assert ContactFormEntries(form)[k] == FormGet(form, k);
  }

  /** An optional field stays only when it was submitted non-empty, with
      the text that was submitted. */
  lemma OptionalFieldCleaned(form: Form, k: string)
    requires k == "phone" || k == "address"
    ensures var p := Cleaned(ContactFormEntries(form));
      && (k in p <==> k in form && form[k] != "")
      && (k in p ==> p[k] == Str(form[k]))
  {
    assert ContactFormEntries(form)[k] == Or(FormGet(form, k), Undefined);
  }

  // ---------------------------------------------------------------------
  // Deal form
  // ---------------------------------------------------------------------

  const ClosedWon := "closedwon"

  /** The `dealProperties` object of `handleCreateDeal`. */
  function DealFormProperties(form: Form): (p: Value)
    ensures p.Obj? && p.fields.Keys == {"dealname", "amount", "dealstage"}
    ensures Get(p, "dealname") == FormGet(form, "dealname")
    ensures Get(p, "amount") == FormGet(form, "amount")
    ensures Get(p, "dealstage") == Str(ClosedWon)
  {
    Obj(map[
      "dealname" := FormGet(form, "dealname"),
      "amount" := FormGet(form, "amount"),
      "dealstage" := Str(ClosedWon)])
  }

  /** The selected contact of the deal form: the selected option's value,
      or null when the form has no such field. */
  function DealFormContactId(form: Form): (id: Value)
    ensures "deal-contact-id" in form ==> id == Str(form["deal-contact-id"])
    ensures "deal-contact-id" !in form ==> id == Null
  {
    FormGet(form, "deal-contact-id")
  }

  /** From the form to the CRM: the deal the proxy creates is won, carries
      the name and amount as typed, and is associated with the selected
      contact exactly when one was selected (the placeholder's empty
      value, or no selection, gives no association). */
  lemma DealFormToPayload(form: Form)
    ensures var b := ServerDeals.DealCreatePayload(DealFormProperties(form), DealFormContactId(form));
      && Get(b.properties, "dealstage") == Str(ClosedWon)
      && Get(b.properties, "dealname") == FormGet(form, "dealname")
      && Get(b.properties, "amount") == FormGet(form, "amount")
      && (b.associations == [] <==> !("deal-contact-id" in form && form["deal-contact-id"] != ""))
      && (forall e :: e in b.associations ==> e.toId == Str(form["deal-contact-id"]))
  {
    var id := DealFormContactId(form);
    var b := ServerDeals.DealCreatePayload(DealFormProperties(form), id);
    if "deal-contact-id" in form && form["deal-contact-id"] != "" {
      assert Truthy(id);
      assert |b.associations| == 1;
    } else {
      assert !Truthy(id);
    }
  }
}
