/** The contact choice of the deal form (`populateContactDropdown`,
    public/app.js): the option list is cut back to its placeholder in place
    and one option per contact is appended. */
module PanelDropdown {

  import opened JsValues
  import opened PanelRender

  /** An `<option>`: its value and its text. */
  datatype SelectOption = SelectOption(value: string, text: string)

  /** A `<select>` element, whose option list the panel edits in place. */
  class Select {
    var options: seq<SelectOption>

    constructor (initial: seq<SelectOption>)
      ensures options == initial
    {
      options := initial;
    }

    /** `select.remove(i)`: removes the option at `i`, and does nothing for
        an index out of range. */
    method Remove(i: int)
      modifies this
      ensures 0 <= i < |old(options)| ==> options == old(options)[..i] + old(options)[i + 1..]
      ensures !(0 <= i < |old(options)|) ==> options == old(options)
    {
      if 0 <= i < |options| {
        options := options[..i] + options[i + 1..];
      }
    }

    /** `select.appendChild(option)`. */
    method AppendChild(o: SelectOption)
      modifies this
      ensures options == old(options) + [o]
    {
      options := options + [o];
    }
  }

  /** The option text `${firstname} ${lastname} (${email})`, each field
      defaulting to the empty string. */
  function OptionText(c: Record): string {
    Display(c, "firstname", "") + " " + Display(c, "lastname", "") + " (" + Display(c, "email", "") + ")"
  }

  /** The option for one contact; its value is the contact id as a string. */
  function ContactOption(c: Record): SelectOption {
    SelectOption(ToJsString(c.id), OptionText(c))
  }

  function ContactOptions(contacts: seq<Record>): (os: seq<SelectOption>)
    ensures |os| == |contacts|
    ensures forall i :: 0 <= i < |contacts| ==> os[i] == ContactOption(contacts[i])
  {
    seq(|contacts|, i requires 0 <= i < |contacts| => ContactOption(contacts[i]))
  }

  /** The placeholder part of an option list: its first option, if any. */
  function Placeholder(options: seq<SelectOption>): (p: seq<SelectOption>)
    ensures |p| <= 1 && |p| <= |options| && p == options[..|p|]
    ensures |p| == 1 <==> |options| > 0
  {
    if |options| == 0 then [] else options[..1]
  }

  /** The option list after `populateContactDropdown(contacts)`. */
  function Populated(options: seq<SelectOption>, contacts: seq<Record>): seq<SelectOption> {
    Placeholder(options) + ContactOptions(contacts)
  }

  /** `populateContactDropdown(contacts)`: remove option 1 while there is
      more than one option, then append one option per contact. */
  method PopulateContactDropdown(dropdown: Select, contacts: seq<Record>)
    modifies dropdown
    ensures dropdown.options == Populated(old(dropdown.options), contacts)
  {
    ghost var initial := dropdown.options;
    while |dropdown.options| > 1
      invariant |dropdown.options| <= |initial|
      invariant |initial| == 0 ==> dropdown.options == []
      invariant |initial| > 0 ==> |dropdown.options| >= 1 && dropdown.options[0] == initial[0]
      decreases |dropdown.options|
    {
      dropdown.Remove(1);
    }
    PlaceholderLeft(initial, dropdown.options);
    var i := 0;
    while i < |contacts|
      invariant 0 <= i <= |contacts|
      invariant dropdown.options == Placeholder(initial) + ContactOptions(contacts[..i])
    {
      dropdown.AppendChild(ContactOption(contacts[i]));
      ContactOptionsStep(contacts, i);
      i := i + 1;
    }
    assert contacts[..i] == contacts;
  }

  /** What the removal loop leaves is the placeholder part. */
  lemma PlaceholderLeft(initial: seq<SelectOption>, left: seq<SelectOption>)
    requires |left| <= 1 && |left| <= |initial|
    requires |initial| == 0 ==> left == []
    requires |initial| > 0 ==> |left| >= 1 && left[0] == initial[0]
    ensures left == Placeholder(initial)
  {
  }

  lemma ContactOptionsStep(contacts: seq<Record>, i: nat)
    requires i < |contacts|
    ensures ContactOptions(contacts[..i + 1]) == ContactOptions(contacts[..i]) + [ContactOption(contacts[i])]
  {
  }

  /** The placeholder is kept, the list holds one more option than there
      are contacts, and option `i + 1` is contact `i`'s, with the contact's
      id as its value. */
  lemma PopulatedShape(options: seq<SelectOption>, contacts: seq<Record>)
    requires |options| > 0
    ensures var r := Populated(options, contacts);
      && |r| == 1 + |contacts|
      && r[0] == options[0]
      && forall i :: 0 <= i < |contacts| ==>
           r[i + 1].value == ToJsString(contacts[i].id) && r[i + 1].text == OptionText(contacts[i])
  {
    var r := Populated(options, contacts);
    forall i | 0 <= i < |contacts|
      ensures r[i + 1] == ContactOption(contacts[i])
    {
      assert r[i + 1] == ContactOptions(contacts)[i];
    }
  }

  /** Populating twice with the same contacts gives the same list as
      populating once: nothing accumulates behind the placeholder. */
  lemma PopulatedIdempotent(options: seq<SelectOption>, contacts: seq<Record>)
    requires |options| > 0
    ensures Populated(Populated(options, contacts), contacts) == Populated(options, contacts)
  {
    var once := Populated(options, contacts);
    assert Placeholder(once) == options[..1];
  }

  /** A contact with string first name, last name and e-mail is offered as
      "first last (email)"; one without properties as "  ()". */
  lemma OptionTextOfContact(c: Record, first: string, last: string, email: string)
    requires first != "" && last != "" && email != ""
    requires c.properties == Obj(map["firstname" := Str(first), "lastname" := Str(last), "email" := Str(email)])
    ensures OptionText(c) == first + " " + last + " (" + email + ")"
  {
  }

  lemma OptionTextWithoutProperties(c: Record)
    requires !Truthy(c.properties)
    ensures OptionText(c) == "  ()"
  {
  }
}
