/** The lead pipeline end to end: what the contact form sends is what the lead-form
    route forwards to the CRM. */
module Pipeline {
  import opened Wrappers
  import opened Json
  import ContactForm
  import LeadForm

  /** Every field the form sends reaches the matching CRM field unchanged; the phone
      field carries the formatted number the form stored. */
  lemma FormReachesCrm(d: ContactForm.FormData)
    ensures ContactForm.FormJson(d).Obj?
    ensures var contact := LeadForm.ContactRecord(ContactForm.FormJson(d).members);
      && Member(contact, "First_Name") == Some(Str(d.firstName))
      && Member(contact, "Last_Name") == Some(Str(d.lastName))
      && Member(contact, "Email") == Some(Str(d.email))
      && Member(contact, "Mobile") == Some(Str(d.phoneNumber))
      && Member(contact, "Project") == Some(Arr(ContactForm.Labels(d.projectTypes)))
      && Member(contact, "Description") == Some(Str(d.projectDetails))
  {
    var body := ContactForm.FormJson(d).members;
    assert DistinctKeys(body);
    LeadForm.ContactFieldsCopied(body);
    MemberAt(body, 0);
    MemberAt(body, 1);
    MemberAt(body, 2);
    MemberAt(body, 3);
    MemberAt(body, 4);
    MemberAt(body, 5);
  }

  /** A worked example: one lead and the CRM payload it becomes. */
  lemma ExampleLead()
    ensures LeadForm.ContactData(ExampleBody) == Obj([("data", Arr([Obj(ExampleContact)]))])
  {
    var body := ExampleBody;
    assert DistinctKeys(body);
    MemberAt(body, 0);
    MemberAt(body, 1);
    MemberAt(body, 2);
    MemberAt(body, 3);
    MemberAt(body, 4);
    MemberAt(body, 5);
    var props := LeadForm.ContactFields(body);
    assert forall i :: 0 <= i < 6 ==> props[i] == (ExampleContact[i].0, Some(ExampleContact[i].1));
    EntriesAllDefined(props);
    assert Entries(props) == ExampleContact;
  }

  /** The example lead's request body. */
  const ExampleBody: seq<(string, Value)> :=
    [ ("projectTypes", Arr([Str("Blog")])),
      ("firstName", Str("A")),
      ("lastName", Str("B")),
      ("email", Str("a@b.com")),
      ("phoneNumber", Str("+91 98765 43210")),
      ("projectDetails", Str("test")) ]

  /** The contact the example lead becomes. */
  const ExampleContact: seq<(string, Value)> :=
    [ ("First_Name", Str("A")),
      ("Last_Name", Str("B")),
      ("Email", Str("a@b.com")),
      ("Mobile", Str("+91 98765 43210")),
      ("Project", Arr([Str("Blog")])),
      ("Description", Str("test")) ]
}
